/** What each accepted step does to its workflow, and that no workflow is ever stuck: as long as its scenario is open
    to it, every run can be continued to its publication. */
module GenerationProgress {
  import opened Base
  import opened Scenarios
  import opened Generation
  import opened GenerationInvariants
  import opened GenerationRuns
  import opened GenerationTheorems

  /** One row entered a state with this error, due at this instant, as one more version, and is nobody's; no other changed. */
  predicate Entered(a: map<Id, Workflow>, b: map<Id, Workflow>, id: Id, state: WorkflowState, error: string, due: Time) {
    id in a && b == a[id := a[id].(state := state, version := a[id].version + 1, lastError := error, nextRun := due, lease := None, run := None)]
  }

  // ---- Steps of the judge ----

  /** A claim holds for its time to the instant, and until then nobody else may claim; a renewal likewise. */
  lemma ClaimLasts(s: State, id: Id, owner: Id, ttl: Time, now: Time, at: Time)
    ensures var step := ClaimWorkflow(s, id, owner, ttl, now);
            && (step.out.Ok? <==> ttl > 0 && id in s.workflows && Claimable(s.workflows[id], now))
            && (step.out.Ok? ==>
                  && step.out.value == Claim(id, s.workflows[id].version, owner)
                  && (Passes(step.after.workflows, step.out.value, at) <==> at < now + ttl)
                  && (now <= at ==> (Claimable(step.after.workflows[id], at) <==> now + ttl <= at)))
  {
  }

  lemma RenewalLasts(s: State, claim: Claim, ttl: Time, now: Time, at: Time)
    ensures var step := RenewLease(s, claim, ttl, now);
            && (step.out.Ok? <==> ttl > 0 && Passes(s.workflows, claim, now))
            && (step.out.Ok? ==> (Passes(step.after.workflows, claim, at) <==> at < now + ttl))
  {
  }

  /** The workflow claimed first is claimable, and no other that could be claimed has waited longer. */
  lemma OldestFirst(s: State, locked: set<Id>, now: Time, k: Id, other: Id)
    requires IsFirst(ClaimQueue(s.workflows, locked, now), k)
    requires other in s.workflows && other !in locked && Claimable(s.workflows[other], now)
    ensures k in s.workflows && k !in locked && Claimable(s.workflows[k], now)
    ensures s.workflows[k].nextRun <= s.workflows[other].nextRun
    ensures s.workflows[k].nextRun == s.workflows[other].nextRun ==> s.workflows[k].created <= s.workflows[other].created
    ensures s.workflows[k].nextRun == s.workflows[other].nextRun && s.workflows[k].created == s.workflows[other].created ==> k <= other
  {
    var queue := ClaimQueue(s.workflows, locked, now);
    assert other in queue && queue[other] == Place(s.workflows[other].nextRun, s.workflows[other].created, other);
  }

  /** The judge's run is the first attempt of its own; the one before it, if it still ran, is over. The claim goes on. */
  lemma RunStarts(s: State, claim: Claim, run: Id, deadline: Time, now: Time, at: Time)
    ensures var step := StartAgentRun(s, claim, run, deadline, now);
            && (step.out.Ok? <==> Passes(s.workflows, claim, now) && run !in s.runs)
            && (step.out.Ok? ==>
                  var w := s.workflows[claim.workflow];
                  && run in step.after.runs && step.after.runs[run] == Run(Judge, claim.workflow, Running, 1, deadline)
                  && step.after.workflows == s.workflows[claim.workflow := w.(run := Some(run))]
                  && (w.run.Some? && w.run.value in s.runs ==> w.run.value in step.after.runs && step.after.runs[w.run.value].status != Running)
                  && (Passes(step.after.workflows, claim, at) <==> Passes(s.workflows, claim, at)))
  {
  }

  /** A technical failure is tried again until there were five attempts or the deadline has passed; then the workflow
      fails with the message. */
  lemma RetryDecides(s: State, claim: Claim, run: Id, message: string, now: Time)
    requires RetryAgentRun(s, claim, run, message, now).out.Ok?
    ensures var step, w, r := RetryAgentRun(s, claim, run, message, now), s.workflows[claim.workflow], s.runs[run];
            && (step.out.value <==> r.attempt < 5 && now < r.deadline)
            && (step.out.value ==> step.after.workflows == s.workflows && step.after.runs == s.runs[run := r.(attempt := r.attempt + 1)])
            && (!step.out.value ==>
                  && Entered(s.workflows, step.after.workflows, claim.workflow, Failed, message, w.nextRun)
                  && step.after.runs[run].status == (if r.status == Running then RunFailed else r.status))
  {
  }

  /** Who may retry: the claim's own running run. */
  lemma RetriesIff(s: State, claim: Claim, run: Id, message: string, now: Time)
    requires run in s.runs && s.runs[run].status == Running
    ensures RetryAgentRun(s, claim, run, message, now).out.Ok?
            <==> message != "" && Passes(s.workflows, claim, now) && s.workflows[claim.workflow].run == Some(run)
  {
  }

  /** After the server has stopped no judge runs and nobody holds a workflow: each waits to be claimed from that instant. */
  lemma StopFrees(s: State, now: Time, id: Id)
    requires id in s.workflows
    ensures var w, t := s.workflows[id], ReleaseJudging(InterruptJudgeRuns(s).after, now).after;
            && t.workflows.Keys == s.workflows.Keys
            && (w.state != Judging ==> t.workflows[id] == w)
            && (w.state == Judging ==>
                  && t.workflows[id] == w.(run := None, lease := None, nextRun := now)
                  && forall at :: Claimable(t.workflows[id], at) <==> now <= at)
  {
  }

  /** And exactly the running runs that judging workflows name are interrupted. */
  lemma StopInterrupts(s: State, now: Time, r: Id)
    requires r in s.runs
    ensures var t := ReleaseJudging(InterruptJudgeRuns(s).after, now).after;
            && t.runs.Keys == s.runs.Keys
            && t.runs[r] == if s.runs[r].status == Running && exists w <- s.workflows :: s.workflows[w].state == Judging && s.workflows[w].run == Some(r)
                            then s.runs[r].(status := Interrupted) else s.runs[r]
  {
    var named := set w | w in s.workflows && s.workflows[w].state == Judging && s.workflows[w].run.Some? :: s.workflows[w].run.value;
    assert r in named <==> exists w <- s.workflows :: s.workflows[w].state == Judging && s.workflows[w].run == Some(r);
  }

  /** An approval sends the workflow to be built, a refusal back to its author with the feedback, which is also the
      candidate's failure. Either way the run succeeded and the verdict is on record. */
  lemma JudgementDecides(s: State, claim: Claim, run: Id, approved: bool, feedback: string, now: Time)
    requires Inv(s)
    ensures var step := FinalizeJudgement(s, claim, run, approved, feedback, now);
            && (step.out.Ok? <==>
                  && (approved || feedback != "") && Passes(s.workflows, claim, now) && s.workflows[claim.workflow].run == Some(run)
                  && run in s.runs && s.runs[run].status == Running)
            && (step.out.Ok? ==>
                  var w, t := s.workflows[claim.workflow], step.after;
                  && Entered(s.workflows, t.workflows, claim.workflow, if approved then MaterializingArtifact else Generating, if approved then "" else feedback, now)
                  && w.candidate.Some? && w.candidate.value in t.candidates
                  && t.candidates[w.candidate.value].judgeRun == Some(run)
                  && t.candidates[w.candidate.value].failure == (if approved then None else Some(Failure(ArtifactFailure, "JUDGE_REJECT", feedback)))
                  && t.runs[run].status == Succeeded && t.verdicts[run] == Verdict(claim.workflow, w.candidate.value, approved))
  {
    if claim.workflow in s.workflows { assert Row(s, claim.workflow); }
  }

  /** A candidate the judge cannot accept goes back to its author with the failure's summary. */
  lemma RejectionReturns(s: State, claim: Claim, failure: Failure, now: Time)
    requires Inv(s)
    ensures var step := ReportArtifactFailure(s, claim, failure, now);
            && (step.out.Ok? <==> failure.code != "" && failure.summary != "" && Passes(s.workflows, claim, now))
            && (step.out.Ok? ==>
                  var w, t := s.workflows[claim.workflow], step.after;
                  && Entered(s.workflows, t.workflows, claim.workflow, Generating, failure.summary, now)
                  && w.candidate.Some? && w.candidate.value in t.candidates && t.candidates[w.candidate.value].failure == Some(failure))
  {
    if claim.workflow in s.workflows { assert Row(s, claim.workflow); }
  }

  // ---- Steps of the author ----

  /** A workflow is started exactly for the well-formed plan its owner has under review. */
  lemma StartsIff(s: State, session: Id, user: Id, plan: nat, key: Id, newId: Id, now: Time)
    requires ReceiptKey(session, ConfirmGeneration, key) !in s.receipts && newId !in s.workflows
    requires forall id <- s.workflows :: !ForPlan(s.workflows[id], session, plan)
    ensures var step := CreateWorkflow(s, session, user, plan, key, newId, now);
            && (step.out.Ok? <==>
                  && session in s.sessions && s.sessions[session].user == user && s.sessions[session].current == plan && s.sessions[session].state == IntentReview
                  && PlanKey(session, plan) in s.plans && s.plans[PlanKey(session, plan)].wellFormed)
            && (step.out.Ok? ==>
                  && step.out.value == newId
                  && step.after.workflows == s.workflows[newId := Workflow(session, plan, Generating, None, None, 1, None, now, now, "", None)])
  {
  }

  lemma ActiveIs(s: State, workflow: Id, workspace: Id)
    requires OneCurrent(s.workspaces) && workspace in s.workspaces && IsActiveFor(s.workspaces[workspace], workflow)
    ensures ActiveWorkspace(s.workspaces, workflow) == Some(workspace)
  {
    assert exists id :: id in s.workspaces && IsActiveFor(s.workspaces[id], workflow);
  }

  /** A submission is accepted exactly from the holder of the workspace's turn, while its workflow is generating. */
  lemma SubmitsIff(s: State, session: Id, user: Id, key: Id, workflow: Id, turn: Id, workspace: Id, candidate: Id,
                   judgeRun: Option<Id>, content: Id, now: Time)
    requires OneCurrent(s.workspaces) && ReceiptKey(session, SubmitCandidate, key) !in s.receipts && candidate !in s.candidates
    requires workspace in s.workspaces && IsActiveFor(s.workspaces[workspace], workflow)
    ensures Submit(s, session, user, key, workflow, turn, candidate, judgeRun, content, now).out.Ok?
            <==> session in s.sessions && s.sessions[session].user == user && InState(s.workflows, workflow, Generating)
                 && s.workflows[workflow].session == session && s.workspaces[workspace].turn == Some(turn)
  {
    hide ActiveWorkspace;
    ActiveIs(s, workflow, workspace);
  }

  /** What was written becomes a candidate after the one before it, made to repair that one's last error; it goes to be
      judged at once, the turn ends, and the snapshot is no longer current. */
  lemma SubmissionStarts(s: State, session: Id, user: Id, key: Id, workflow: Id, turn: Id, workspace: Id, candidate: Id,
                         judgeRun: Option<Id>, content: Id, now: Time)
    requires OneCurrent(s.workspaces) && ReceiptKey(session, SubmitCandidate, key) !in s.receipts
    requires workspace in s.workspaces && IsActiveFor(s.workspaces[workspace], workflow)
    requires Submit(s, session, user, key, workflow, turn, candidate, judgeRun, content, now).out.Ok?
    ensures var step := Submit(s, session, user, key, workflow, turn, candidate, judgeRun, content, now);
            var t := step.after;
            && step.out.value == candidate && workflow in s.workflows
            && var w := s.workflows[workflow];
               && t.workflows == s.workflows[workflow := w.(state := Judging, candidate := Some(candidate), version := w.version + 1, lastError := "", nextRun := now, run := None)]
               && candidate in t.candidates
               && t.candidates[candidate].content == content && t.candidates[candidate].parent == w.candidate
               && t.candidates[candidate].repair == (if w.candidate.Some? then w.lastError else "")
               && t.candidates[candidate].failure.None? && t.candidates[candidate].published.None?
               && t.workspaces == s.workspaces[workspace := s.workspaces[workspace].(turn := None, idle := None)]
               && t.snapshots == s.snapshots - {workflow}
  {
    hide ActiveWorkspace;
    ActiveIs(s, workflow, workspace);
  }

  /** Confirming a verified candidate under review reserves the revision it will be published as: the successor of the
      scenario's active one, or the first of a new scenario. */
  lemma ConfirmationReserves(s: State, session: Id, user: Id, key: Id, workflow: Id, candidate: Id, names: Names, title: string, now: Time)
    requires Inv(s) && ReceiptKey(session, ConfirmContent, key) !in s.receipts && title != ""
    ensures var step := ConfirmReview(s, session, user, key, workflow, candidate, names, title, now);
            && (step.out.Ok? <==>
                  && session in s.sessions && s.sessions[session].user == user && InState(s.workflows, workflow, NeedsAuthorReview)
                  && s.workflows[workflow].session == session && s.workflows[workflow].candidate == Some(candidate)
                  && Extensible(s.pub, s.sessions[session]))
            && (step.out.Ok? ==>
                  var w, t := s.workflows[workflow], step.after;
                  && Entered(s.workflows, t.workflows, workflow, Publishing, "", now)
                  && candidate in t.candidates
                  && t.sessions == s.sessions && t.pub == s.pub
                  && t.candidates[candidate].publication == Some(Reservation(s.pub, s.sessions[session], candidate, names, title)))
  {
    if workflow in s.workflows { assert Row(s, workflow); }
  }

  /** The scenario the session was opened on still stands where the session found it. */
  predicate Extensible(pub: Tables, session: Session) {
    session.target.Some? ==>
      var target := session.target.value;
      && target.scenario in pub.scenarios
      && var c := pub.scenarios[target.scenario];
         c.kind == Authoring && c.owner == Some(session.user) && c.state == Active && c.active == target.base
  }

  function Reservation(pub: Tables, session: Session, candidate: Id, names: Names, title: string): Publication
    requires Extensible(pub, session)
  {
    var (scenario, base, slug) :=
      if session.target.None? then (names.scenario, None, names.slug)
      else (session.target.value.scenario, Some(session.target.value.base), pub.scenarios[session.target.value.scenario].slug);
    Publication(candidate, scenario, names.revision, base, slug, Path(slug, names.revision), title)
  }

  /** Asking for changes sends the workflow back to its author with what was asked for. */
  lemma ChangesReturn(s: State, session: Id, user: Id, key: Id, workflow: Id, candidate: Id, feedback: string, now: Time)
    requires Inv(s) && ReceiptKey(session, RequestContentChanges, key) !in s.receipts
    ensures var step := RequestChanges(s, session, user, key, workflow, candidate, feedback, now);
            && (step.out.Ok? <==>
                  && feedback != "" && session in s.sessions && s.sessions[session].user == user && InState(s.workflows, workflow, NeedsAuthorReview)
                  && s.workflows[workflow].session == session && s.workflows[workflow].candidate == Some(candidate))
            && (step.out.Ok? ==>
                  Entered(s.workflows, step.after.workflows, workflow, Generating, feedback, now) && step.after.candidates == s.candidates)
  {
    if workflow in s.workflows { assert Row(s, workflow); }
  }

  /** Whatever a workflow is doing, its owner can cancel it until it has ended. */
  lemma CancelsIff(s: State, session: Id, user: Id, key: Id, workflow: Id)
    requires ReceiptKey(session, CancelGeneration, key) !in s.receipts
    ensures var step := CancelWorkflow(s, session, user, key, workflow);
            && (step.out.Ok? <==>
                  && session in s.sessions && s.sessions[session].user == user && workflow in s.workflows && s.workflows[workflow].session == session
                  && !s.workflows[workflow].state.Terminal())
            && (step.out.Ok? ==>
                  Entered(s.workflows, step.after.workflows, workflow, Cancelled, "cancelled", s.workflows[workflow].nextRun))
  {
  }

  // ---- Steps of the other writers ----

  /** A session opens for its user with nothing to generate yet. */
  lemma SessionOpens(s: State, id: Id, user: Id)
    ensures CreateSession(s, id, user).out.Ok? <==> id !in s.sessions
    ensures CreateSession(s, id, user).out.Ok? ==>
              CreateSession(s, id, user).after.sessions == s.sessions[id := Session(user, DraftConversation, 0, 0, None, None)]
  {
  }

  /** A plan finished on the session's current revision becomes the next one, under review. */
  lemma PlanIsReviewed(s: State, id: Id, expected: nat, wellFormed: bool)
    requires id in s.sessions
    ensures SavePlan(s, id, expected, wellFormed).out.Ok? <==> s.sessions[id].current == expected && PlanKey(id, expected + 1) !in s.plans
    ensures SavePlan(s, id, expected, wellFormed).out.Ok? ==>
              SavePlan(s, id, expected, wellFormed)
              == Step(s.(sessions := s.sessions[id := s.sessions[id].(current := expected + 1, state := IntentReview)],
                         plans := s.plans[PlanKey(id, expected + 1) := PlanRow(wellFormed, None)]), Ok(expected + 1))
  {
  }

  /** The owner of an active authored scenario reopens it: the session starts from the plan the scenario came from, and
      remembers the revision active now. */
  lemma ReopensIff(s: State, id: Id, user: Id, scenario: Id)
    requires Consistent(s.pub) && scenario in s.pub.scenarios && id !in s.sessions
    ensures var step, c := CreateRevisionSession(s, id, user, scenario), s.pub.scenarios[scenario];
            && (step.out.Ok? <==>
                  && c.kind == Authoring && c.owner == Some(user) && c.state == Active
                  && c.sourceRef in s.sessions && PlanKey(c.sourceRef, s.sessions[c.sourceRef].current) in s.plans)
            && (step.out.Ok? ==>
                  && step.after.sessions == s.sessions[id := Session(user, DraftConversation, 0, 0, None, Some(Target(scenario, c.active)))]
                  && step.after.plans == s.plans[PlanKey(id, 0) := PlanRow(s.plans[PlanKey(c.sourceRef, s.sessions[c.sourceRef].current)].wellFormed, None)]
                  && step.after.pub == s.pub)
  {
    OneActiveRevision(s.pub, scenario);
  }

  /** The owner of an active authored scenario hides it; nothing else changes. */
  lemma HidesIff(s: State, user: Id, scenario: Id)
    requires Consistent(s.pub) && scenario in s.pub.scenarios
    ensures var step, c := DeprecateScenario(s, user, scenario), s.pub.scenarios[scenario];
            && (step.out.Ok? <==> c.kind == Authoring && c.owner == Some(user) && c.state == Active)
            && (step.out.Ok? ==>
                  step.after == s.(pub := s.pub.(scenarios := s.pub.scenarios[scenario := c.(state := Deprecated)])))
  {
    OneActiveRevision(s.pub, scenario);
  }

  /** A run is ended by others while it runs; runnable records are written once. */
  lemma RecordsAreWrittenOnce(s: State, id: Id, status: RunStatus, runnable: RunnableRow, report: ReportRow)
    ensures EndRun(s, id, status)
            == (if id in s.runs && s.runs[id].status == Running && status != Running
                then Step(s.(runs := s.runs[id := s.runs[id].(status := status)]), Ok(())) else Step(s, Err(RunActive)))
    ensures StoreRunnable(s, id, runnable)
            == (if id !in s.runnables && forall k <- s.runnables :: s.runnables[k].digest != runnable.digest
                then Step(s.(runnables := s.runnables[id := runnable]), Ok(())) else Step(s, Err(Constraint)))
    ensures StoreReport(s, id, report)
            == (if id !in s.reports && forall k <- s.reports :: s.reports[k].digest != report.digest
                then Step(s.(reports := s.reports[id := report]), Ok(())) else Step(s, Err(Constraint)))
  {
  }

  // ---- Steps of the builder and the finalizer ----

  /** Building is done with a runnable revision of this very candidate, which then waits to be verified. */
  lemma MaterializationAdvances(s: State, workflow: Id, ref: RunnableRef, now: Time)
    requires Inv(s)
    ensures var step := MarkMaterialized(s, workflow, ref, now);
            && (step.out.Ok? <==>
                  && InState(s.workflows, workflow, MaterializingArtifact)
                  && var c := s.workflows[workflow].candidate;
                     c.Some? && c.value in s.candidates && ref.id in s.runnables
                     && s.runnables[ref.id] == RunnableRow(ref.digest, true, c.value, s.candidates[c.value].content))
            && (step.out.Ok? ==>
                  var w, t := s.workflows[workflow], step.after;
                  && Entered(s.workflows, t.workflows, workflow, Verifying, w.lastError, now)
                  && t.candidates == s.candidates[w.candidate.value := s.candidates[w.candidate.value].(runnable := Some(ref))])
  {
    if workflow in s.workflows { assert Row(s, workflow); }
  }

  /** A passing report brings the candidate before its author and makes its plan the visible one; a failed report sends
      the workflow back, with the failure on the candidate. */
  lemma VerificationDecides(s: State, workflow: Id, ref: ReportRef, now: Time)
    requires Inv(s)
    ensures var step := MarkVerified(s, workflow, ref, now);
            && (step.out.Ok? <==>
                  && InState(s.workflows, workflow, Verifying)
                  && var c := s.workflows[workflow].candidate;
                     c.Some? && c.value in s.candidates && s.candidates[c.value].runnable.Some?
                     && ref.id in s.reports && s.reports[ref.id].digest == ref.digest
                     && s.reports[ref.id].revisionDigest == s.candidates[c.value].runnable.value.digest)
            && (step.out.Ok? ==>
                  var w, t, passed := s.workflows[workflow], step.after, s.reports[ref.id].passed;
                  && step.out.value == passed
                  && Entered(s.workflows, t.workflows, workflow, if passed then NeedsAuthorReview else Generating, if passed then "" else NotPassed, now)
                  && var c := t.candidates[w.candidate.value];
                     && c.report == Some(ref) && c.verified == Some(now)
                     && c.failure == (if passed then None else Some(Failure(ArtifactFailure, "VERIFY_FAILED", NotPassed)))
                     && w.session in t.sessions && t.sessions[w.session].visible == (if passed then w.plan else s.sessions[w.session].visible)
                     && (passed && PlanKey(w.session, w.plan) in s.plans ==> t.plans[PlanKey(w.session, w.plan)].candidate == w.candidate)
                     && (!passed ==> t.plans == s.plans))
  {
    if workflow in s.workflows { assert Row(s, workflow); }
  }

  /** What cannot be built or verified ends the workflow. */
  lemma GivingUpEnds(s: State, workflow: Id, message: string)
    requires workflow in s.workflows && s.workflows[workflow].run.None? && s.workflows[workflow].lease.None?
    ensures FailRunnable(s, workflow, message).out.Ok? <==> message != "" && s.workflows[workflow].state in {MaterializingArtifact, Verifying}
    ensures var t := FailRunnable(s, workflow, message).after.workflows;
            FailRunnable(s, workflow, message).out.Ok? ==>
              Entered(s.workflows, t, workflow, Failed, message, s.workflows[workflow].nextRun)
  {
  }

  /** A publication that could not be made is tried again at the time given, or, when trying again is no use, ends the workflow. */
  lemma FinalizerFailureDecides(s: State, workflow: Id, candidate: Id, d: Diagnostic)
    ensures var step := RecordFinalizerFailure(s, workflow, candidate, d);
            && (step.out.Ok? <==>
                  && d.message != "" && (d.category == Deterministic <==> d.retry.None?)
                  && InState(s.workflows, workflow, Publishing) && s.workflows[workflow].candidate == Some(candidate))
            && (step.out.Ok? ==>
                  var w, v := s.workflows[workflow], step.after.workflows[workflow];
                  && v.state == (if d.category == Deterministic then Failed else Publishing)
                  && v.lastError == d.message && v.finalizer == Some(d) && v.version == w.version
                  && v.nextRun == (if d.retry.Some? then d.retry.value else d.attempted))
  {
  }

  /** The reserved revision is there, new, and the active one of its scenario, which is its author's and active. */
  predicate Stands(before: Tables, after: Tables, p: Publication, owner: Id, materialized: Id) {
    && p.scenario in after.scenarios && after.scenarios[p.scenario].active == p.revision && after.scenarios[p.scenario].state == Active
    && after.scenarios[p.scenario].owner == Some(owner)
    && p.revision in after.revisions && p.revision !in before.revisions && after.revisions[p.revision].state == ActiveRevision
    && after.revisions[p.revision].materialized == materialized
  }

  lemma TablesStand(pub: Tables, session: Session, w: Workflow, c: Candidate, p: Publication, materialized: Id)
    requires c.runnable.Some? && c.report.Some? && FinalizeTables(pub, session, w, c, p, materialized).Ok?
    ensures Stands(pub, FinalizeTables(pub, session, w, c, p, materialized).value, p, session.user, materialized)
  {
  }

  /** Publication makes the reserved revision the scenario's active one, and the session's scenario public. */
  lemma PublicationTakesEffect(s: State, workflow: Id, candidate: Id, content: Id, materialized: Id, now: Time)
    requires FinalizePublication(s, workflow, candidate, content, materialized, now).out.Ok?
    ensures var t, w := FinalizePublication(s, workflow, candidate, content, materialized, now).after, s.workflows[workflow];
            && w.state == Publishing && w.candidate == Some(candidate) && candidate in s.candidates
            && s.candidates[candidate].content == content && s.candidates[candidate].publication.Some?
            && var p := s.candidates[candidate].publication.value;
               && t.workflows == s.workflows[workflow := w.(state := Published, version := w.version + 1, lastError := "", finalizer := None)]
               && t.candidates == s.candidates[candidate := s.candidates[candidate].(published := Some(now))]
               && w.session in s.sessions && Stands(s.pub, t.pub, p, s.sessions[w.session].user, materialized)
               && t.sessions == s.sessions[w.session := s.sessions[w.session].(published := Some(p.scenario), state := SessionPublished)]
  {
    hide FinalizeTables, Stands;
    var w, c := s.workflows[workflow], s.candidates[candidate];
    TablesStand(s.pub, s.sessions[w.session], w, c, c.publication.value, materialized);
  }
}
