/** What every transaction on the generation tables keeps. */
module GenerationInvariants {
  import opened Base
  import opened Scenarios
  import opened Generation

  // ---- One workflow row ----

  ghost predicate JudgeRunOf(s: State, run: Id, workflow: Id) {
    run in s.runs && s.runs[run].purpose == Judge && s.runs[run].owner == workflow
  }

  ghost predicate CandidateOf(s: State, candidate: Id, w: Workflow) {
    candidate in s.candidates && s.candidates[candidate].session == w.session && s.candidates[candidate].plan == w.plan
  }

  /** A judge run of this workflow succeeded and approved exactly this candidate. */
  ghost predicate Approved(s: State, workflow: Id, candidate: Id)
    requires candidate in s.candidates
  {
    var run := s.candidates[candidate].judgeRun;
    && run.Some?
    && JudgeRunOf(s, run.value, workflow)
    && s.runs[run.value].status == Succeeded
    && run.value in s.verdicts && s.verdicts[run.value] == Verdict(workflow, candidate, true)
  }

  /** Materialized to a runnable revision whose spec names this candidate and its content. */
  ghost predicate Built(s: State, candidate: Id)
    requires candidate in s.candidates
  {
    var c := s.candidates[candidate];
    c.runnable.Some? && MatchesCandidate(s.runnables, c.runnable.value, candidate, c.content)
  }

  /** A passing report on exactly the runnable revision the candidate was built to. */
  ghost predicate Passed(s: State, candidate: Id)
    requires candidate in s.candidates
  {
    var c := s.candidates[candidate];
    c.runnable.Some? && c.report.Some? && ReportOn(s.reports, c.report.value, c.runnable.value.digest)
    && s.reports[c.report.value.id].passed
  }

  ghost predicate Reserved(s: State, candidate: Id)
    requires candidate in s.candidates
  {
    var p := s.candidates[candidate].publication;
    p.Some? && p.value.candidate == candidate && p.value.path == Path(p.value.slug, p.value.revision)
  }

  /** The reserved revision is in the published tables and carries the candidate's own references. */
  ghost predicate Public(s: State, w: Workflow, candidate: Id)
    requires candidate in s.candidates && Reserved(s, candidate)
  {
    var c := s.candidates[candidate];
    var p := c.publication.value;
    && p.revision in s.pub.revisions
    && var r := s.pub.revisions[p.revision];
       && r.scenario == p.scenario && r.kind == Authoring && r.sourceRef == w.session && r.sourceRevision == w.plan
       && r.content == c.content && r.path == p.path && c.runnable == Some(r.runnable) && c.report == Some(r.report)
  }

  predicate AtLeast(state: WorkflowState, stage: WorkflowState) { Rank(state) >= Rank(stage) }

  function Rank(state: WorkflowState): nat {
    match state
    case Generating | Failed | Cancelled => 0
    case Judging => 1
    case MaterializingArtifact => 2
    case Verifying => 3
    case NeedsAuthorReview => 4
    case Publishing => 5
    case Published => 6
  }

  /** What a candidate has behind it once its workflow has reached a state. */
  ghost predicate Progress(s: State, workflow: Id, w: Workflow, candidate: Id)
    requires candidate in s.candidates
  {
    var c := s.candidates[candidate];
    && c.failure.None?
    && (c.published.Some? <==> w.state == Published)
    && (AtLeast(w.state, MaterializingArtifact) ==> Approved(s, workflow, candidate))
    && (AtLeast(w.state, Verifying) ==> Built(s, candidate))
    && (AtLeast(w.state, NeedsAuthorReview) ==> Passed(s, candidate))
    && (AtLeast(w.state, Publishing) ==> Reserved(s, candidate))
    && (w.state == Published ==> Public(s, w, candidate))
  }

  ghost predicate Row(s: State, id: Id)
    requires id in s.workflows
  {
    var w := s.workflows[id];
    && w.version >= 1
    && w.session in s.sessions
    && (w.lease.Some? || w.run.Some? ==> w.state == Judging)
    && (w.run.Some? ==> JudgeRunOf(s, w.run.value, id))
    && (w.candidate.Some? ==> CandidateOf(s, w.candidate.value, w))
    && (AtLeast(w.state, Judging) ==> w.candidate.Some? && Progress(s, id, w, w.candidate.value))
  }

  ghost predicate Rows(s: State) { forall id <- s.workflows :: Row(s, id) }

  ghost predicate EndedVerdicts(verdicts: map<Id, Verdict>, runs: map<Id, Run>) {
    forall r <- verdicts :: r in runs && runs[r].status == Succeeded
  }

  /** A claim names a workflow, and a version that workflow has reached; a lease is an issued claim. */
  ghost predicate ClaimsIssued(issued: map<Id, Claim>, workflows: map<Id, Workflow>) {
    && (forall o <- issued :: issued[o].owner == o && issued[o].workflow in workflows
                              && issued[o].version <= workflows[issued[o].workflow].version)
    && (forall w <- workflows :: workflows[w].lease.Some? ==>
          var o := workflows[w].lease.value.owner;
          o in issued && issued[o] == Claim(w, workflows[w].version, o))
  }

  // ---- Receipts ----

  ghost predicate ReceiptShape(workflows: map<Id, Workflow>, candidates: map<Id, Candidate>, k: ReceiptKey, r: Receipt) {
    && r.workflow in workflows && workflows[r.workflow].session == k.session
    && match k.action
       case ConfirmGeneration => r.request.StartRequest? && r.plan == Some(r.request.plan) && r.candidate.None?
                                 && workflows[r.workflow].plan == r.request.plan
       case SubmitCandidate => r.request.SubmitRequest? && r.workflow == r.request.workflow && r.plan.None?
                               && r.candidate.Some? && r.candidate.value in candidates
       case ConfirmContent => r.request.ContentRequest? && r.request.workflow == r.workflow && r.candidate == Some(r.request.candidate)
       case RequestContentChanges => r.request.ChangeRequest? && r.request.workflow == r.workflow && r.candidate == Some(r.request.candidate)
       case CancelGeneration => r.request == CancelRequest(r.workflow)
  }

  ghost predicate ReceiptsMatch(receipts: map<ReceiptKey, Receipt>, workflows: map<Id, Workflow>, candidates: map<Id, Candidate>) {
    forall k <- receipts :: ReceiptShape(workflows, candidates, k, receipts[k])
  }

  // ---- The published tables ----

  /** The workflow that published an authored revision. */
  ghost predicate OriginOf(workflows: map<Id, Workflow>, candidates: map<Id, Candidate>, r: Id, w: Id) {
    && w in workflows && workflows[w].state == Published
    && workflows[w].candidate.Some? && workflows[w].candidate.value in candidates
    && candidates[workflows[w].candidate.value].published.Some?
    && candidates[workflows[w].candidate.value].publication.Some?
    && candidates[workflows[w].candidate.value].publication.value.revision == r
  }

  ghost predicate HasOrigin(workflows: map<Id, Workflow>, candidates: map<Id, Candidate>, r: Id) {
    exists w :: OriginOf(workflows, candidates, r, w)
  }

  /** A session without target publishes the first revision of its own scenario; one with a
      target publishes the successor of exactly the revision it was opened on. */
  ghost predicate FromSession(sessions: map<Id, Session>, scenarios: map<Id, Scenario>, r: Revision) {
    && r.sourceRef in sessions
    && match sessions[r.sourceRef].target
       case None => r.base == None && r.scenario in scenarios && scenarios[r.scenario].sourceRef == r.sourceRef
       case Some(target) => r.scenario == target.scenario && r.base == Some(target.base)
  }

  ghost predicate Authored(pub: Tables, workflows: map<Id, Workflow>, candidates: map<Id, Candidate>, sessions: map<Id, Session>) {
    forall r <- pub.revisions :: pub.revisions[r].kind == Authoring ==>
      HasOrigin(workflows, candidates, r) && FromSession(sessions, pub.scenarios, pub.revisions[r])
  }

  ghost predicate Inv(s: State) {
    && Rows(s)
    && OnePerPlan(s.workflows)
    && EndedVerdicts(s.verdicts, s.runs)
    && ClaimsIssued(s.issued, s.workflows)
    && ReceiptsMatch(s.receipts, s.workflows, s.candidates)
    && Consistent(s.pub)
    && Authored(s.pub, s.workflows, s.candidates, s.sessions)
    && OneCurrent(s.workspaces)
  }

  // ---- What one step may do to the past ----

  ghost predicate Kept<T(!new)>(before: map<Id, T>, after: map<Id, T>) {
    forall k <- before :: k in after && after[k] == before[k]
  }

  predicate Edge(a: WorkflowState, b: WorkflowState) {
    match a
    case Generating => b in {Judging, Cancelled}
    case Judging => b in {MaterializingArtifact, Generating, Failed, Cancelled}
    case MaterializingArtifact => b in {Verifying, Failed, Cancelled}
    case Verifying => b in {NeedsAuthorReview, Generating, Failed, Cancelled}
    case NeedsAuthorReview => b in {Publishing, Generating, Cancelled}
    case Publishing => b in {Published, Failed, Cancelled}
    case Published | Failed | Cancelled => false
  }

  /** One step of one workflow row: along an edge, raising the version by exactly one unless
      the finalizer gives up; a terminal row never changes again. */
  ghost predicate Moves(a: Workflow, b: Workflow) {
    && b.session == a.session && b.plan == a.plan
    && (a.state == b.state || Edge(a.state, b.state))
    && b.version == (if a.state == b.state || (a.state == Publishing && b.state == Failed) then a.version else a.version + 1)
    && (a.state.Terminal() ==> b == a)
  }

  ghost predicate WorkflowsMove(a: map<Id, Workflow>, b: map<Id, Workflow>) {
    && (forall id <- a :: id in b && Moves(a[id], b[id]))
    && (forall id <- b :: id !in a ==> b[id].version == 1)
  }

  ghost predicate SessionsStay(a: map<Id, Session>, b: map<Id, Session>) {
    forall id <- a :: id in b && b[id].user == a[id].user && b[id].target == a[id].target
  }

  ghost predicate CandidatesStay(a: map<Id, Candidate>, b: map<Id, Candidate>) {
    forall id <- a :: id in b && b[id].session == a[id].session && b[id].plan == a[id].plan
                      && b[id].content == a[id].content && b[id].parent == a[id].parent
                      && (a[id].published.Some? ==> b[id] == a[id])
  }

  /** A run that has ended stays as it ended. */
  ghost predicate RunsStay(a: map<Id, Run>, b: map<Id, Run>) {
    forall id <- a :: id in b && b[id].purpose == a[id].purpose && b[id].owner == a[id].owner
                      && (a[id].status != Running ==> b[id] == a[id])
  }

  ghost predicate ReceiptsStay(a: map<ReceiptKey, Receipt>, b: map<ReceiptKey, Receipt>) {
    forall k <- a :: k in b && b[k] == a[k]
  }

  /** No step gives a lease back to a claim issued before it, unless that claim held it all along. */
  ghost predicate LeasesFollow(issued: map<Id, Claim>, a: map<Id, Workflow>, b: map<Id, Workflow>) {
    forall w <- b :: b[w].lease.Some? && b[w].lease.value.owner in issued ==>
      w in a && LeaseFollows(a[w], b[w])
  }

  ghost predicate LeaseFollows(a: Workflow, b: Workflow) {
    b.lease.Some? ==> a.lease.Some? && b.lease.value.owner == a.lease.value.owner && b.version == a.version
  }

  /** What was recorded stays recorded. */
  ghost predicate Later(s: State, t: State) {
    && SessionsStay(s.sessions, t.sessions)
    && CandidatesStay(s.candidates, t.candidates)
    && RunsStay(s.runs, t.runs)
    && ReceiptsStay(s.receipts, t.receipts)
    && Kept(s.runnables, t.runnables)
    && Kept(s.reports, t.reports)
    && Kept(s.verdicts, t.verdicts)
    && Kept(s.issued, t.issued)
    && Grows(s.pub, t.pub)
  }

  ghost predicate Sound(s: State, t: State) {
    Inv(t) && Later(s, t) && WorkflowsMove(s.workflows, t.workflows) && LeasesFollow(s.issued, s.workflows, t.workflows)
  }

  // ---- Frames ----

  /** A row not touched by a step keeps what it had. */
  lemma RowFrame(s: State, t: State, id: Id)
    requires Later(s, t) && id in s.workflows && id in t.workflows && Row(s, id)
    requires t.workflows[id] == s.workflows[id]
    requires s.workflows[id].candidate.Some? ==>
               s.workflows[id].candidate.value in t.candidates
               && t.candidates[s.workflows[id].candidate.value] == s.candidates[s.workflows[id].candidate.value]
    ensures Row(t, id)
  {
  }

  lemma AuthoredFrame(s: State, t: State)
    requires Authored(s.pub, s.workflows, s.candidates, s.sessions) && t.pub == s.pub
    requires SessionsStay(s.sessions, t.sessions) && CandidatesStay(s.candidates, t.candidates)
    requires WorkflowsMove(s.workflows, t.workflows)
    ensures Authored(t.pub, t.workflows, t.candidates, t.sessions)
  {
    forall r | r in t.pub.revisions && t.pub.revisions[r].kind == Authoring
      ensures HasOrigin(t.workflows, t.candidates, r) && FromSession(t.sessions, t.pub.scenarios, t.pub.revisions[r])
    {
      OriginFrame(s, t, r);
    }
  }

  lemma OriginFrame(s: State, t: State, r: Id)
    requires HasOrigin(s.workflows, s.candidates, r)
    requires CandidatesStay(s.candidates, t.candidates) && WorkflowsMove(s.workflows, t.workflows)
    ensures HasOrigin(t.workflows, t.candidates, r)
  {
    var w :| OriginOf(s.workflows, s.candidates, r, w);
    assert OriginOf(t.workflows, t.candidates, r, w);
  }

  lemma ReceiptsFrame(s: State, t: State)
    requires ReceiptsMatch(s.receipts, s.workflows, s.candidates) && t.receipts == s.receipts
    requires CandidatesStay(s.candidates, t.candidates) && WorkflowsMove(s.workflows, t.workflows)
    ensures ReceiptsMatch(t.receipts, t.workflows, t.candidates)
  {
    forall k | k in t.receipts ensures ReceiptShape(t.workflows, t.candidates, k, t.receipts[k]) {
      assert ReceiptShape(s.workflows, s.candidates, k, s.receipts[k]);
    }
  }
}
