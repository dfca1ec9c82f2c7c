/** The repository: its tables are fields, its transactions methods that read and update them row by
    row. Each is proved to do exactly what the function it is named after does to the whole database. */
module GenerationRepository {
  import opened Base
  import opened Scenarios
  import opened Generation
  import opened GenerationInvariants
  import opened GenerationPublication
  import opened GenerationReceipts
  import opened GenerationRuns
  import opened GenerationTheorems
  import opened GenerationSteps

  // ---- The queries read the rows the functions speak of ----

  lemma ActiveIs(s: State, workflow: Id, id: Id)
    requires Inv(s) && id in s.workspaces && IsActiveFor(s.workspaces[id], workflow)
    ensures ActiveWorkspace(s.workspaces, workflow) == Some(id)
  {
  }

  lemma NoneActive(workspaces: map<Id, Workspace>, workflow: Id)
    requires forall id <- workspaces :: !IsActiveFor(workspaces[id], workflow)
    ensures ActiveWorkspace(workspaces, workflow) == None
  {
  }

  lemma NoneCurrent(workspaces: map<Id, Workspace>, workflow: Id)
    requires forall id <- workspaces :: !IsCurrentFor(workspaces[id], workflow)
    ensures CurrentWorkspace(workspaces, workflow) == None
  {
  }

  lemma CurrentIs(s: State, workflow: Id, id: Id)
    requires Inv(s) && id in s.workspaces && IsCurrentFor(s.workspaces[id], workflow)
    ensures CurrentWorkspace(s.workspaces, workflow) == Some(id)
  {
  }

  lemma WorkflowIs(s: State, session: Id, plan: nat, id: Id)
    requires Inv(s) && id in s.workflows && ForPlan(s.workflows[id], session, plan)
    ensures WorkflowFor(s.workflows, session, plan) == Some(id)
  {
  }

  lemma NoneForPlan(workflows: map<Id, Workflow>, session: Id, plan: nat)
    requires forall id <- workflows :: !ForPlan(workflows[id], session, plan)
    ensures WorkflowFor(workflows, session, plan) == None
  {
  }

  // ---- Statements that update many rows ----

  function InJudging(workflows: map<Id, Workflow>): set<Id> { set w | w in workflows && workflows[w].state == Judging }

  /** A judging workflow that is not waiting to be seen names the run. */
  ghost predicate NamedBy(workflows: map<Id, Workflow>, waiting: set<Id>, run: Id) {
    exists w <- workflows :: workflows[w].state == Judging && w !in waiting && workflows[w].run == Some(run)
  }

  ghost function StoppedRuns(workflows: map<Id, Workflow>, runs: map<Id, Run>, waiting: set<Id>): map<Id, Run> {
    map r | r in runs :: if runs[r].status == Running && NamedBy(workflows, waiting, r) then runs[r].(status := Interrupted) else runs[r]
  }

  lemma NoneStopped(workflows: map<Id, Workflow>, runs: map<Id, Run>)
    ensures StoppedRuns(workflows, runs, InJudging(workflows)) == runs
  {
  }

  lemma AllStopped(s: State)
    ensures InterruptJudgeRuns(s).after == s.(runs := StoppedRuns(s.workflows, s.runs, {}))
  {
  }

  lemma OneMoreNamed(workflows: map<Id, Workflow>, waiting: set<Id>, w: Id, r: Id)
    requires w in waiting && w in workflows && workflows[w].state == Judging
    ensures NamedBy(workflows, waiting - {w}, r) <==> NamedBy(workflows, waiting, r) || workflows[w].run == Some(r)
  {
    if NamedBy(workflows, waiting - {w}, r) {
      var v :| v in workflows && workflows[v].state == Judging && v !in waiting - {w} && workflows[v].run == Some(r);
      assert v == w || v !in waiting;
    }
  }

  lemma OneMoreStopped(workflows: map<Id, Workflow>, runs: map<Id, Run>, waiting: set<Id>, w: Id)
    requires w in waiting && w in workflows && workflows[w].state == Judging
    ensures var before, run := StoppedRuns(workflows, runs, waiting), workflows[w].run;
            StoppedRuns(workflows, runs, waiting - {w})
            == if run.Some? && run.value in before && before[run.value].status == Running
               then before[run.value := before[run.value].(status := Interrupted)] else before
  {
    hide NamedBy;
    forall r | r in runs
      ensures NamedBy(workflows, waiting - {w}, r) <==> NamedBy(workflows, waiting, r) || workflows[w].run == Some(r)
    {
      OneMoreNamed(workflows, waiting, w, r);
    }
  }

  /** The running runs named by judging workflows become interrupted. */
  method InterruptRuns(s: State) returns (runs: map<Id, Run>)
    ensures InterruptJudgeRuns(s).after == s.(runs := runs)
  {
    hide StoppedRuns, InterruptJudgeRuns;
    runs := s.runs;
    var judging := InJudging(s.workflows);
    NoneStopped(s.workflows, s.runs);
    AllStopped(s);
    while judging != {}
      invariant judging <= InJudging(s.workflows)
      invariant runs == StoppedRuns(s.workflows, s.runs, judging)
      decreases |judging|
    {
      var w :| w in judging;
      var run := s.workflows[w].run;
      OneMoreStopped(s.workflows, s.runs, judging, w);
      if run.Some? && run.value in runs && runs[run.value].status == Running {
        runs := runs[run.value := runs[run.value].(status := Interrupted)];
      }
      judging := judging - {w};
    }
  }

  ghost function ReleasedRows(workflows: map<Id, Workflow>, waiting: set<Id>, now: Time): map<Id, Workflow> {
    map w | w in workflows :: if workflows[w].state == Judging && w !in waiting then workflows[w].(run := None, lease := None, nextRun := now) else workflows[w]
  }

  lemma ReleasedAll(s: State, now: Time)
    ensures ReleasedRows(s.workflows, InJudging(s.workflows), now) == s.workflows
    ensures ReleaseJudging(s, now).after == s.(workflows := ReleasedRows(s.workflows, {}, now))
  {
  }

  lemma OneMoreReleased(workflows: map<Id, Workflow>, waiting: set<Id>, now: Time, w: Id)
    requires w in waiting && w in workflows && workflows[w].state == Judging
    ensures var before := ReleasedRows(workflows, waiting, now);
            ReleasedRows(workflows, waiting - {w}, now) == before[w := before[w].(run := None, lease := None, nextRun := now)]
  {
  }

  /** Every judging workflow gives up its run and its lease. */
  method ReleaseRows(s: State, now: Time) returns (workflows: map<Id, Workflow>)
    ensures ReleaseJudging(s, now).after == s.(workflows := workflows)
  {
    hide ReleasedRows, ReleaseJudging;
    workflows := s.workflows;
    var judging := InJudging(s.workflows);
    ReleasedAll(s, now);
    while judging != {}
      invariant judging <= InJudging(s.workflows) && workflows.Keys == s.workflows.Keys
      invariant workflows == ReleasedRows(s.workflows, judging, now)
      decreases |judging|
    {
      var w :| w in judging;
      OneMoreReleased(s.workflows, judging, now, w);
      workflows := workflows[w := workflows[w].(run := None, lease := None, nextRun := now)];
      judging := judging - {w};
    }
  }

  /** `db` is the database behind the connection. A transaction works on its own copy `tx` and commits it. */
  class Repository {
    var db: State

    ghost predicate Valid()
      reads this
    {
      Inv(db)
    }

    constructor ()
      ensures Valid() && db == Empty
    {
      db := Empty;
      EmptyInv();
    }

    // ---- The workflow ----

    method Create(session: Id, user: Id, plan: nat, key: Id, newId: Id, now: Time) returns (r: Outcome<Id>)
      requires Valid()
      modifies this
      ensures Valid()
      ensures Step(db, r) == Generation.CreateWorkflow(old(db), session, user, plan, key, newId, now)
    {
      hide Inv, Sound, WorkflowFor;
      CreateWorkflowKeeps(db, session, user, plan, key, newId, now);
      SoundInv(db, Generation.CreateWorkflow(db, session, user, plan, key, newId, now).after);
      var tx := db;
      var rkey := ReceiptKey(session, ConfirmGeneration, key);
      if !Owns(tx.sessions, session, user) { return Err(NotFound); }
      match ReceiptFor(tx.receipts, rkey, StartRequest(plan)) {
        case Mismatch => return Err(Conflict);
        case Replay(receipt) =>
          if receipt.plan != Some(plan) { return Err(Conflict); }
          return Ok(receipt.workflow);
        case Fresh =>
      }
      if existing: Id :| existing in tx.workflows && ForPlan(tx.workflows[existing], session, plan) {
        WorkflowIs(tx, session, plan, existing);
        db := tx.(receipts := tx.receipts[rkey := Receipt(StartRequest(plan), existing, Some(plan), None)]);
        return Ok(existing);
      }
      NoneForPlan(tx.workflows, session, plan);
      if tx.sessions[session].current != plan || tx.sessions[session].state != IntentReview { return Err(InvalidState); }
      if PlanKey(session, plan) !in tx.plans { return Err(NotFound); }
      if !tx.plans[PlanKey(session, plan)].wellFormed { return Err(Invalid); }
      if newId in tx.workflows { return Err(Constraint); }
      tx := tx.(workflows := tx.workflows[newId := NewWorkflow(session, plan, now)]);
      tx := tx.(receipts := tx.receipts[rkey := Receipt(StartRequest(plan), newId, Some(plan), None)]);
      db := tx;
      return Ok(newId);
    }

    /** The first claimable row no other transaction holds, under a name never drawn before. */
    method ClaimAgentWorkflow(locked: set<Id>, owner: Id, ttl: Time, now: Time) returns (r: Option<Claim>)
      requires Valid() && ttl > 0 && owner !in db.issued
      modifies this
      ensures Valid()
      ensures var queue := ClaimQueue(old(db.workflows), locked, now);
              if queue == map[] then r == None && db == old(db)
              else exists id :: IsFirst(queue, id) && r.Some?
                                && Step(db, Ok(r.value)) == ClaimWorkflow(old(db), id, owner, ttl, now)
    {
      hide Inv, Sound;
      var tx := db;
      var queue := ClaimQueue(tx.workflows, locked, now);
      if queue == map[] { return None; }
      FirstExists(queue);
      var id :| id in queue && IsFirst(queue, id);
      var w := tx.workflows[id];
      tx := tx.(workflows := tx.workflows[id := w.(lease := Some(Lease(owner, now + ttl)))]);
      tx := tx.(issued := tx.issued[owner := Claim(id, w.version, owner)]);
      ClaimKeeps(db, id, owner, ttl, now);
      SoundInv(db, tx);
      db := tx;
      return Some(Claim(id, w.version, owner));
    }

    method Renew(claim: Claim, ttl: Time, now: Time) returns (r: Outcome<()>)
      requires Valid()
      modifies this
      ensures Valid()
      ensures Step(db, r) == Generation.RenewLease(old(db), claim, ttl, now)
    {
      hide Inv, Sound;
      RenewKeeps(db, claim, ttl, now);
      SoundInv(db, Generation.RenewLease(db, claim, ttl, now).after);
      if ttl <= 0 || !Passes(db.workflows, claim, now) { return Err(LeaseLost); }
      var w := db.workflows[claim.workflow];
      db := db.(workflows := db.workflows[claim.workflow := w.(lease := Some(Lease(claim.owner, now + ttl)))]);
      return Ok(());
    }

    method StartAgentRun(claim: Claim, run: Id, deadline: Time, now: Time) returns (r: Outcome<()>)
      requires Valid()
      modifies this
      ensures Valid()
      ensures Step(db, r) == Generation.StartAgentRun(old(db), claim, run, deadline, now)
    {
      hide Inv, Sound;
      StartAgentRunKeeps(db, claim, run, deadline, now);
      SoundInv(db, Generation.StartAgentRun(db, claim, run, deadline, now).after);
      var tx := db;
      if !Passes(tx.workflows, claim, now) { return Err(LeaseLost); }
      if run in tx.runs { return Err(Constraint); }
      var w := tx.workflows[claim.workflow];
      if w.run.Some? { tx := tx.(runs := EndIfRunning(tx.runs, w.run.value, Interrupted)); }
      tx := tx.(runs := tx.runs[run := Run(Judge, claim.workflow, Running, 1, deadline)]);
      tx := tx.(workflows := tx.workflows[claim.workflow := w.(run := Some(run))]);
      db := tx;
      return Ok(());
    }

    method RetryAgentRun(claim: Claim, run: Id, message: string, now: Time) returns (r: Outcome<bool>)
      requires Valid()
      modifies this
      ensures Valid()
      ensures Step(db, r) == Generation.RetryAgentRun(old(db), claim, run, message, now)
    {
      hide Inv, Sound;
      RetryAgentRunKeeps(db, claim, run, message, now);
      SoundInv(db, Generation.RetryAgentRun(db, claim, run, message, now).after);
      var tx := db;
      if message == "" || !Passes(tx.workflows, claim, now) { return Err(LeaseLost); }
      var w := tx.workflows[claim.workflow];
      if w.run != Some(run) { return Err(LeaseLost); }
      if run !in tx.runs { return Err(NotFound); }
      if tx.runs[run].attempt < MaxAttempts && tx.runs[run].deadline > now {
        if tx.runs[run].status != Running { return Err(NotFound); }
        tx := tx.(runs := tx.runs[run := tx.runs[run].(attempt := tx.runs[run].attempt + 1)]);
        assert tx.workflows[claim.workflow := w] == tx.workflows;
        db := tx;
        return Ok(true);
      }
      tx := tx.(runs := EndIfRunning(tx.runs, run, RunFailed));
      tx := tx.(workflows := tx.workflows[claim.workflow := w.Enter(Failed, message, w.nextRun).DropLease()]);
      db := tx;
      return Ok(false);
    }

    /** Server stop: two statements, each a transaction of its own, and each updating row after row. */
    method InterruptActiveAgentRuns(now: Time)
      requires Valid()
      modifies this
      ensures Valid()
      ensures db == ReleaseJudging(InterruptJudgeRuns(old(db)).after, now).after
    {
      hide Inv, Sound, InterruptJudgeRuns, ReleaseJudging;
      InterruptJudgeRunsKeeps(db);
      SoundInv(db, InterruptJudgeRuns(db).after);
      ReleaseJudgingKeeps(InterruptJudgeRuns(db).after, now);
      SoundInv(InterruptJudgeRuns(db).after, ReleaseJudging(InterruptJudgeRuns(db).after, now).after);
      var runs := InterruptRuns(db);
      db := db.(runs := runs);
      var workflows := ReleaseRows(db, now);
      db := db.(workflows := workflows);
    }

    method Submit(session: Id, user: Id, key: Id, workflow: Id, turn: Id,
                  candidate: Id, judgeRun: Option<Id>, content: Id, now: Time) returns (r: Outcome<Id>)
      requires Valid()
      modifies this
      ensures Valid()
      ensures Step(db, r) == Generation.Submit(old(db), session, user, key, workflow, turn, candidate, judgeRun, content, now)
    {
      hide Inv, Sound, ActiveWorkspace;
      SubmitKeeps(db, session, user, key, workflow, turn, candidate, judgeRun, content, now);
      SoundInv(db, Generation.Submit(db, session, user, key, workflow, turn, candidate, judgeRun, content, now).after);
      var tx := db;
      var request := SubmitRequest(workflow, turn);
      var rkey := ReceiptKey(session, SubmitCandidate, key);
      if !Owns(tx.sessions, session, user) { return Err(NotFound); }
      match ReceiptFor(tx.receipts, rkey, request) {
        case Mismatch => return Err(Conflict);
        case Replay(receipt) =>
          if receipt.workflow != workflow || receipt.candidate.None? { return Err(Conflict); }
          return Ok(receipt.candidate.value);
        case Fresh =>
      }
      if !InState(tx.workflows, workflow, Generating) || tx.workflows[workflow].session != session { return Err(InvalidState); }
      var w := tx.workflows[workflow];
      if space: Id :| space in tx.workspaces && IsActiveFor(tx.workspaces[space], workflow) {
        ActiveIs(tx, workflow, space);
        if tx.workspaces[space].turn != Some(turn) { return Err(TurnLost); }
        if candidate in tx.candidates { return Err(Constraint); }
        tx := tx.(candidates := tx.candidates[candidate := NewCandidate(w, judgeRun, content)]);
        tx := tx.(workspaces := tx.workspaces[space := tx.workspaces[space].(turn := None, idle := None)]);
        tx := tx.(workflows := tx.workflows[workflow := w.Enter(Judging, "", now).(candidate := Some(candidate), run := None)],
                  snapshots := tx.snapshots - {workflow});
        tx := tx.(receipts := tx.receipts[rkey := Receipt(request, workflow, None, Some(candidate))]);
        db := tx;
        return Ok(candidate);
      }
      NoneActive(tx.workspaces, workflow);
      return Err(TurnLost);
    }

    method FinalizeJudgement(claim: Claim, run: Id, approved: bool, feedback: string, now: Time) returns (r: Outcome<()>)
      requires Valid()
      modifies this
      ensures Valid()
      ensures Step(db, r) == Generation.FinalizeJudgement(old(db), claim, run, approved, feedback, now)
    {
      hide Inv, Sound;
      FinalizeJudgementKeeps(db, claim, run, approved, feedback, now);
      SoundInv(db, Generation.FinalizeJudgement(db, claim, run, approved, feedback, now).after);
      var tx := db;
      if !approved && feedback == "" { return Err(Invalid); }
      if !Passes(tx.workflows, claim, now) { return Err(LeaseLost); }
      var w := tx.workflows[claim.workflow];
      if w.run != Some(run) || w.candidate.None? { return Err(LeaseLost); }
      if run !in tx.runs || tx.runs[run].status != Running { return Err(RunActive); }
      if w.candidate.value !in tx.candidates { return Err(Constraint); }
      var c := tx.candidates[w.candidate.value].(judgeRun := Some(run));
      tx := tx.(runs := tx.runs[run := tx.runs[run].(status := Succeeded)]);
      if approved {
        tx := tx.(candidates := tx.candidates[w.candidate.value := c]);
        tx := tx.(workflows := tx.workflows[claim.workflow := w.Enter(MaterializingArtifact, "", now).DropLease()]);
      } else {
        tx := tx.(candidates := tx.candidates[w.candidate.value := c.(failure := Some(Failure(ArtifactFailure, "JUDGE_REJECT", feedback)))]);
        tx := tx.(workflows := tx.workflows[claim.workflow := w.Enter(Generating, feedback, now).DropLease()]);
      }
      tx := tx.(verdicts := tx.verdicts[run := Verdict(claim.workflow, w.candidate.value, approved)]);
      db := tx;
      return Ok(());
    }

    method ReportArtifactFailure(claim: Claim, failure: Failure, now: Time) returns (r: Outcome<()>)
      requires Valid()
      modifies this
      ensures Valid()
      ensures Step(db, r) == Generation.ReportArtifactFailure(old(db), claim, failure, now)
    {
      hide Inv, Sound;
      ReportArtifactFailureKeeps(db, claim, failure, now);
      SoundInv(db, Generation.ReportArtifactFailure(db, claim, failure, now).after);
      var tx := db;
      if !failure.Valid() || !Passes(tx.workflows, claim, now) { return Err(LeaseLost); }
      var w := tx.workflows[claim.workflow];
      if w.candidate.None? { return Err(InvalidState); }
      if w.candidate.value !in tx.candidates { return Err(Constraint); }
      tx := tx.(candidates := tx.candidates[w.candidate.value := tx.candidates[w.candidate.value].(failure := Some(failure))]);
      tx := tx.(workflows := tx.workflows[claim.workflow := w.Enter(Generating, failure.summary, now).DropLease()]);
      db := tx;
      return Ok(());
    }

    method FailRunnable(workflow: Id, message: string) returns (r: Outcome<()>)
      requires Valid()
      modifies this
      ensures Valid()
      ensures Step(db, r) == Generation.FailRunnable(old(db), workflow, message)
    {
      hide Inv, Sound;
      FailRunnableKeeps(db, workflow, message);
      SoundInv(db, Generation.FailRunnable(db, workflow, message).after);
      if message == "" { return Err(Invalid); }
      if workflow !in db.workflows { return Err(InvalidState); }
      var w := db.workflows[workflow];
      if w.state != MaterializingArtifact && w.state != Verifying { return Err(InvalidState); }
      db := db.(workflows := db.workflows[workflow := w.Enter(Failed, message, w.nextRun)]);
      return Ok(());
    }

    method MarkMaterialized(workflow: Id, ref: RunnableRef, now: Time) returns (r: Outcome<()>)
      requires Valid()
      modifies this
      ensures Valid()
      ensures Step(db, r) == Generation.MarkMaterialized(old(db), workflow, ref, now)
    {
      hide Inv, Sound;
      MarkMaterializedKeeps(db, workflow, ref, now);
      SoundInv(db, Generation.MarkMaterialized(db, workflow, ref, now).after);
      var tx := db;
      if workflow !in tx.workflows { return Err(NotFound); }
      var w := tx.workflows[workflow];
      if w.state != MaterializingArtifact || w.candidate.None? { return Err(InvalidState); }
      if w.candidate.value !in tx.candidates { return Err(NotFound); }
      var c := tx.candidates[w.candidate.value];
      if !MatchesCandidate(tx.runnables, ref, w.candidate.value, c.content) { return Err(Invalid); }
      tx := tx.(candidates := tx.candidates[w.candidate.value := c.(runnable := Some(ref))]);
      tx := tx.(workflows := tx.workflows[workflow := w.Enter(Verifying, w.lastError, now)]);
      db := tx;
      return Ok(());
    }

    method MarkVerified(workflow: Id, ref: ReportRef, now: Time) returns (r: Outcome<bool>)
      requires Valid()
      modifies this
      ensures Valid()
      ensures Step(db, r) == Generation.MarkVerified(old(db), workflow, ref, now)
    {
      hide Inv, Sound;
      MarkVerifiedKeeps(db, workflow, ref, now);
      SoundInv(db, Generation.MarkVerified(db, workflow, ref, now).after);
      var tx := db;
      if workflow !in tx.workflows { return Err(NotFound); }
      var w := tx.workflows[workflow];
      if w.state != Verifying || w.candidate.None? { return Err(InvalidState); }
      if w.candidate.value !in tx.candidates { return Err(NotFound); }
      var c := tx.candidates[w.candidate.value];
      if c.runnable.None? { return Err(InvalidState); }
      if !ReportOn(tx.reports, ref, c.runnable.value.digest) { return Err(Invalid); }
      var passed := tx.reports[ref.id].passed;
      c := c.(report := Some(ref), verified := Some(now));
      if passed {
        tx := tx.(plans := RevealPlan(tx.plans, PlanKey(w.session, w.plan), w.candidate.value));
        tx := tx.(sessions := RevealIn(tx.sessions, PlanKey(w.session, w.plan)));
        w := w.Enter(NeedsAuthorReview, "", now);
      } else {
        c := c.(failure := Some(Failure(ArtifactFailure, "VERIFY_FAILED", NotPassed)));
        w := w.Enter(Generating, NotPassed, now);
      }
      tx := tx.(candidates := tx.candidates[w.candidate.value := c]);
      tx := tx.(workflows := tx.workflows[workflow := w]);
      db := tx;
      return Ok(passed);
    }

    method ConfirmContent(session: Id, user: Id, key: Id, workflow: Id, candidate: Id, names: Names, title: string, now: Time) returns (r: Outcome<Id>)
      requires Valid()
      modifies this
      ensures Valid()
      ensures Step(db, r) == Generation.ConfirmReview(old(db), session, user, key, workflow, candidate, names, title, now)
    {
      hide Inv, Sound, PreparePublication;
      ConfirmReviewKeeps(db, session, user, key, workflow, candidate, names, title, now);
      SoundInv(db, Generation.ConfirmReview(db, session, user, key, workflow, candidate, names, title, now).after);
      var tx := db;
      var request := ContentRequest(workflow, candidate);
      var rkey := ReceiptKey(session, Action.ConfirmContent, key);
      if title == "" { return Err(Invalid); }
      if !Owns(tx.sessions, session, user) { return Err(NotFound); }
      match ReceiptFor(tx.receipts, rkey, request) {
        case Mismatch => return Err(Conflict);
        case Replay(receipt) => return Ok(receipt.workflow);
        case Fresh =>
      }
      if workflow !in tx.workflows || tx.workflows[workflow].session != session { return Err(InvalidState); }
      if !UnderReview(tx, session, workflow, candidate) { return Err(InvalidState); }
      if candidate !in tx.candidates { return Err(NotFound); }
      var c := tx.candidates[candidate];
      if c.runnable.None? || c.report.None? { return Err(InvalidState); }
      if !ReportOn(tx.reports, c.report.value, c.runnable.value.digest) { return Err(InvalidState); }
      if !tx.reports[c.report.value.id].passed { return Err(InvalidState); }
      var prepared := PreparePublication(tx.pub, tx.sessions[session], candidate, names, title);
      if prepared.Err? { return Err(prepared.error); }
      tx := tx.(candidates := tx.candidates[candidate := c.(publication := Some(prepared.value))]);
      tx := tx.(workflows := tx.workflows[workflow := tx.workflows[workflow].Enter(Publishing, "", now)]);
      tx := tx.(receipts := tx.receipts[rkey := Receipt(request, workflow, None, Some(candidate))]);
      db := tx;
      return Ok(workflow);
    }

    method RequestContentChanges(session: Id, user: Id, key: Id, workflow: Id, candidate: Id, feedback: string, now: Time) returns (r: Outcome<Id>)
      requires Valid()
      modifies this
      ensures Valid()
      ensures Step(db, r) == Generation.RequestChanges(old(db), session, user, key, workflow, candidate, feedback, now)
    {
      hide Inv, Sound;
      RequestChangesKeeps(db, session, user, key, workflow, candidate, feedback, now);
      SoundInv(db, Generation.RequestChanges(db, session, user, key, workflow, candidate, feedback, now).after);
      var tx := db;
      var request := ChangeRequest(workflow, candidate, feedback);
      var rkey := ReceiptKey(session, Action.RequestContentChanges, key);
      if feedback == "" { return Err(Invalid); }
      if !Owns(tx.sessions, session, user) { return Err(NotFound); }
      match ReceiptFor(tx.receipts, rkey, request) {
        case Mismatch => return Err(Conflict);
        case Replay(receipt) => return Ok(receipt.workflow);
        case Fresh =>
      }
      if workflow !in tx.workflows || tx.workflows[workflow].session != session { return Err(InvalidState); }
      if !UnderReview(tx, session, workflow, candidate) { return Err(InvalidState); }
      tx := tx.(workflows := tx.workflows[workflow := tx.workflows[workflow].Enter(Generating, feedback, now)]);
      tx := tx.(receipts := tx.receipts[rkey := Receipt(request, workflow, None, Some(candidate))]);
      db := tx;
      return Ok(workflow);
    }

    method Cancel(session: Id, user: Id, key: Id, workflow: Id) returns (r: Outcome<Id>)
      requires Valid()
      modifies this
      ensures Valid()
      ensures Step(db, r) == Generation.CancelWorkflow(old(db), session, user, key, workflow)
    {
      hide Inv, Sound;
      CancelWorkflowKeeps(db, session, user, key, workflow);
      SoundInv(db, Generation.CancelWorkflow(db, session, user, key, workflow).after);
      var tx := db;
      var rkey := ReceiptKey(session, CancelGeneration, key);
      if !Owns(tx.sessions, session, user) { return Err(NotFound); }
      match ReceiptFor(tx.receipts, rkey, CancelRequest(workflow)) {
        case Mismatch => return Err(Conflict);
        case Replay(receipt) => return Ok(receipt.workflow);
        case Fresh =>
      }
      if workflow !in tx.workflows || tx.workflows[workflow].session != session { return Err(NotFound); }
      var w := tx.workflows[workflow];
      if w.state.Terminal() { return Err(InvalidState); }
      tx := tx.(workflows := tx.workflows[workflow := w.Enter(Cancelled, "cancelled", w.nextRun).DropLease()]);
      tx := tx.(receipts := tx.receipts[rkey := Receipt(CancelRequest(workflow), workflow, None, None)]);
      db := tx;
      return Ok(workflow);
    }

    // ---- Publication ----

    method RecordFinalizerFailure(workflow: Id, candidate: Id, d: Diagnostic) returns (r: Outcome<()>)
      requires Valid()
      modifies this
      ensures Valid()
      ensures Step(db, r) == Generation.RecordFinalizerFailure(old(db), workflow, candidate, d)
    {
      hide Inv, Sound;
      RecordFinalizerFailureKeeps(db, workflow, candidate, d);
      SoundInv(db, Generation.RecordFinalizerFailure(db, workflow, candidate, d).after);
      if !d.Valid() { return Err(Invalid); }
      var state, next := Publishing, d.attempted;
      if d.retry.Some? { next := d.retry.value; }
      if d.category == Deterministic { state := Failed; }
      if !InState(db.workflows, workflow, Publishing) || db.workflows[workflow].candidate != Some(candidate) { return Err(InvalidState); }
      var w := db.workflows[workflow];
      db := db.(workflows := db.workflows[workflow := w.(state := state, nextRun := next, lastError := d.message, finalizer := Some(d))]);
      return Ok(());
    }

    method FinalizePublication(workflow: Id, candidate: Id, content: Id, materialized: Id, now: Time) returns (r: Outcome<()>)
      requires Valid()
      modifies this
      ensures Valid()
      ensures Step(db, r) == Generation.FinalizePublication(old(db), workflow, candidate, content, materialized, now)
    {
      hide Inv, Sound, FinalizeTables;
      FinalizePublicationKeeps(db, workflow, candidate, content, materialized, now);
      SoundInv(db, Generation.FinalizePublication(db, workflow, candidate, content, materialized, now).after);
      var tx := db;
      if !InState(tx.workflows, workflow, Publishing) || tx.workflows[workflow].candidate != Some(candidate) { return Err(InvalidState); }
      if candidate !in tx.candidates { return Err(NotFound); }
      var w := tx.workflows[workflow];
      var c := tx.candidates[candidate];
      if c.publication.None? || c.published.Some? || c.content != content || c.runnable.None? || c.report.None? { return Err(InvalidState); }
      var p := c.publication.value;
      if w.session !in tx.sessions { return Err(NotFound); }
      var session := tx.sessions[w.session];
      var published := FinalizeTables(tx.pub, session, w, c, p, materialized);
      if published.Err? { return Err(published.error); }
      tx := tx.(pub := published.value);
      tx := tx.(candidates := tx.candidates[candidate := c.(published := Some(now))]);
      tx := tx.(sessions := tx.sessions[w.session := session.(state := SessionPublished, published := Some(p.scenario))]);
      tx := tx.(workflows := tx.workflows[workflow := w.Enter(Published, "", w.nextRun).(finalizer := None)]);
      db := tx;
      return Ok(());
    }

    // ---- Workspaces ----

    /** The insert may be refused by a row that is there already; then that row must be the caller's own. */
    method CreateWorkspace(id: Id, row: Workspace) returns (r: Outcome<Id>)
      requires Valid()
      modifies this
      ensures Valid()
      ensures Step(db, r) == Generation.CreateWorkspace(old(db), id, row)
    {
      hide Inv, Sound, CurrentWorkspace;
      SpaceSound(db, Provisions(id, row));
      SoundInv(db, Generation.CreateWorkspace(db, id, row).after);
      if !ValidWorkspace(row) { return Err(Invalid); }
      var clash := id in db.workspaces || exists k <- db.workspaces :: db.workspaces[k].pvc == row.pvc;
      if !clash && row.Current() {
        if current: Id :| current in db.workspaces && IsCurrentFor(db.workspaces[current], row.workflow) {
          CurrentIs(db, row.workflow, current);
          clash := true;
        } else {
          NoneCurrent(db.workspaces, row.workflow);
        }
      }
      if !clash { db := db.(workspaces := db.workspaces[id := row]); }
      assert db.workspaces == Provisioned(old(db).workspaces, id, row);
      if id in db.workspaces {
        if db.workspaces[id].workflow != row.workflow || db.workspaces[id].pvc != row.pvc { return Err(Conflict); }
        return Ok(id);
      }
      if existing: Id :| existing in db.workspaces && IsCurrentFor(db.workspaces[existing], row.workflow) {
        CurrentIs(db, row.workflow, existing);
        return Ok(existing);
      }
      NoneCurrent(db.workspaces, row.workflow);
      return Err(NotFound);
    }

    method AcquireTurn(workflow: Id, turn: Id) returns (r: Outcome<Id>)
      requires Valid()
      modifies this
      ensures Valid()
      ensures Step(db, r) == Generation.AcquireTurn(old(db), workflow, turn)
    {
      hide Inv, Sound, ActiveWorkspace;
      SpaceSound(db, TakesTurn(workflow, turn));
      SoundInv(db, Generation.AcquireTurn(db, workflow, turn).after);
      var tx := db;
      if id: Id :| id in tx.workspaces && IsActiveFor(tx.workspaces[id], workflow) {
        ActiveIs(tx, workflow, id);
        var row := tx.workspaces[id];
        if row.turn.Some? && row.turn != Some(turn) { return Err(Busy); }
        if row.turn.None? { tx := tx.(workspaces := tx.workspaces[id := row.(turn := Some(turn), idle := None)]); }
        tx := tx.(saved := tx.saved - {id});
        db := tx;
        return Ok(id);
      }
      NoneActive(tx.workspaces, workflow);
      return Err(NotFound);
    }

    method ReleaseTurn(workflow: Id, turn: Id) returns (r: Outcome<()>)
      requires Valid()
      modifies this
      ensures Valid()
      ensures Step(db, r) == Generation.ReleaseTurn(old(db), workflow, turn)
    {
      hide Inv, Sound, ActiveWorkspace;
      SpaceSound(db, EndsTurn(workflow, turn));
      SoundInv(db, Generation.ReleaseTurn(db, workflow, turn).after);
      if id: Id :| id in db.workspaces && IsActiveFor(db.workspaces[id], workflow) {
        ActiveIs(db, workflow, id);
        if db.workspaces[id].turn != Some(turn) { return Err(TurnLost); }
        db := db.(workspaces := db.workspaces[id := db.workspaces[id].(turn := None, idle := None)]);
        return Ok(());
      }
      NoneActive(db.workspaces, workflow);
      return Err(TurnLost);
    }

    method RecordSandbox(id: Id, sandbox: Id) returns (r: Outcome<()>)
      requires Valid()
      modifies this
      ensures Valid()
      ensures Step(db, r) == Generation.RecordSandbox(old(db), id, sandbox)
    {
      hide Inv, Sound;
      SpaceSound(db, NamesSandbox(id, sandbox));
      SoundInv(db, Generation.RecordSandbox(db, id, sandbox).after);
      if id !in db.workspaces { return Err(NotFound); }
      var row := db.workspaces[id];
      if row.state != WorkspacePending || (row.sandbox.Some? && row.sandbox != Some(sandbox)) { return Err(InvalidState); }
      db := db.(workspaces := db.workspaces[id := row.(sandbox := Some(sandbox))]);
      return Ok(());
    }

    method ActivateWorkspace(id: Id, sandbox: Id) returns (r: Outcome<()>)
      requires Valid()
      modifies this
      ensures Valid()
      ensures Step(db, r) == Generation.ActivateWorkspace(old(db), id, sandbox)
    {
      hide Inv, Sound;
      SpaceSound(db, Activates(id, sandbox));
      SoundInv(db, Generation.ActivateWorkspace(db, id, sandbox).after);
      if id !in db.workspaces { return Err(NotFound); }
      var row := db.workspaces[id];
      if !row.Current() || (row.sandbox.Some? && row.sandbox != Some(sandbox)) { return Err(InvalidState); }
      db := db.(workspaces := db.workspaces[id := row.(sandbox := Some(sandbox), state := WorkspaceActive)]);
      return Ok(());
    }

    method BeginCleanup(id: Id) returns (r: Outcome<()>)
      requires Valid()
      modifies this
      ensures Valid()
      ensures Step(db, r) == Generation.BeginCleanup(old(db), id)
    {
      hide Inv, Sound;
      SpaceSound(db, CleansUp(id));
      SoundInv(db, Generation.BeginCleanup(db, id).after);
      if id !in db.workspaces { return Err(NotFound); }
      var row := db.workspaces[id];
      if row.state != WorkspaceDeleted && row.state != WorkspaceDeleting {
        db := db.(workspaces := db.workspaces[id := row.(state := WorkspaceDeleting, turn := None, idle := None)]);
      }
      return Ok(());
    }

    method RetireCurrent(workflow: Id) returns (r: Outcome<Id>)
      requires Valid()
      modifies this
      ensures Valid()
      ensures Step(db, r) == Generation.RetireCurrent(old(db), workflow)
    {
      hide Inv, Sound, CurrentWorkspace;
      SpaceSound(db, RetiresCurrent(workflow));
      SoundInv(db, Generation.RetireCurrent(db, workflow).after);
      if id: Id :| id in db.workspaces && IsCurrentFor(db.workspaces[id], workflow) {
        CurrentIs(db, workflow, id);
        db := db.(workspaces := db.workspaces[id := db.workspaces[id].(state := WorkspaceDeleting, turn := None, idle := None)]);
        return Ok(id);
      }
      NoneCurrent(db.workspaces, workflow);
      return Err(NotFound);
    }

    /** Startup recovery changes the rows one after the other, in one transaction. */
    method RetireIncomplete() returns (retired: set<Id>)
      requires Valid()
      modifies this
      ensures Valid()
      ensures db == Generation.RetireIncomplete(old(db)).after
      ensures retired == set id | id in old(db.workspaces) && Incomplete(old(db.workflows), old(db.workspaces)[id])
    {
      hide Inv, Sound;
      SpaceSound(db, RetiresIncomplete);
      SoundInv(db, Generation.RetireIncomplete(db).after);
      var tx := db;
      retired := set id | id in tx.workspaces && Incomplete(tx.workflows, tx.workspaces[id]);
      var todo := retired;
      while todo != {}
        invariant todo <= retired
        invariant tx == old(db).(workspaces := tx.workspaces) && tx.workspaces.Keys == old(db.workspaces).Keys
        invariant forall id <- tx.workspaces ::
                    tx.workspaces[id] == if id in retired && id !in todo then old(db.workspaces)[id].Retire() else old(db.workspaces)[id]
        decreases |todo|
      {
        var id :| id in todo;
        tx := tx.(workspaces := tx.workspaces[id := tx.workspaces[id].(state := WorkspaceDeleting, turn := None, idle := None)]);
        todo := todo - {id};
      }
      assert tx.workspaces == Generation.RetireIncomplete(old(db)).after.workspaces;
      db := tx;
    }

    method MarkDeleted(id: Id) returns (r: Outcome<()>)
      requires Valid()
      modifies this
      ensures Valid()
      ensures Step(db, r) == Generation.MarkDeleted(old(db), id)
    {
      hide Inv, Sound;
      SpaceSound(db, Deletes(id));
      SoundInv(db, Generation.MarkDeleted(db, id).after);
      if id !in db.workspaces { return Err(NotFound); }
      var row := db.workspaces[id];
      if row.state != WorkspaceDeleting && row.state != WorkspaceDeleted { return Err(NotFound); }
      db := db.(workspaces := db.workspaces[id := row.(state := WorkspaceDeleted)]);
      return Ok(());
    }

    method AcquireSnapshot(workflow: Id, holder: Id) returns (r: Outcome<Id>)
      requires Valid()
      modifies this
      ensures Valid()
      ensures Step(db, r) == Generation.AcquireSnapshot(old(db), workflow, holder)
    {
      hide Inv, Sound, ActiveWorkspace;
      SpaceSound(db, TakesSnapshot(workflow, holder));
      SoundInv(db, Generation.AcquireSnapshot(db, workflow, holder).after);
      var tx := db;
      if !InState(tx.workflows, workflow, Generating) { return Err(NotFound); }
      if id: Id :| id in tx.workspaces && IsActiveFor(tx.workspaces[id], workflow) {
        ActiveIs(tx, workflow, id);
        var row := tx.workspaces[id];
        if row.turn.Some? { return Err(Busy); }
        if row.idle.Some? && workflow in tx.snapshots { return Err(SnapshotCurrent); }
        db := tx.(workspaces := tx.workspaces[id := row.(turn := Some(holder), idle := None)]);
        return Ok(id);
      }
      NoneActive(tx.workspaces, workflow);
      return Err(NotFound);
    }

    method PublishSnapshot(id: Id, holder: Id, digest: Id, now: Time) returns (r: Outcome<()>)
      requires Valid()
      modifies this
      ensures Valid()
      ensures Step(db, r) == Generation.PublishSnapshot(old(db), id, holder, digest, now)
    {
      hide Inv, Sound;
      SpaceSound(db, Saves(id, holder, digest, now));
      SoundInv(db, Generation.PublishSnapshot(db, id, holder, digest, now).after);
      var tx := db;
      if id !in tx.workspaces { return Err(TurnLost); }
      var row := tx.workspaces[id];
      if !InState(tx.workflows, row.workflow, Generating) { return Err(TurnLost); }
      if row.state != WorkspaceActive || row.turn != Some(holder) { return Err(TurnLost); }
      var since := now;
      if row.workflow in tx.snapshots && tx.snapshots[row.workflow] == digest && row.idle.Some? { since := row.idle.value; }
      tx := tx.(snapshots := tx.snapshots[row.workflow := digest]);
      tx := tx.(workspaces := tx.workspaces[id := row.(turn := None, idle := Some(since))]);
      tx := tx.(saved := tx.saved[id := digest]);
      db := tx;
      return Ok(());
    }

    method ClearSnapshot(workflow: Id, expected: Id) returns (r: Outcome<bool>)
      requires Valid()
      modifies this
      ensures Valid()
      ensures Step(db, r) == Generation.ClearSnapshot(old(db), workflow, expected)
    {
      hide Inv, Sound;
      SpaceSound(db, DropsSnapshot(workflow, expected));
      SoundInv(db, Generation.ClearSnapshot(db, workflow, expected).after);
      var tx := db;
      if !InState(tx.workflows, workflow, Generating) { return Ok(false); }
      if workflow !in tx.snapshots || tx.snapshots[workflow] != expected { return Ok(false); }
      tx := tx.(snapshots := tx.snapshots - {workflow});
      tx := tx.(workspaces := map id | id in tx.workspaces ::
                  if tx.workspaces[id].workflow == workflow && tx.workspaces[id].state == WorkspaceActive
                  then tx.workspaces[id].(idle := None) else tx.workspaces[id]);
      db := tx;
      return Ok(true);
    }

    method RetireIdle(id: Id, expected: Id, staleBefore: Time) returns (r: Outcome<()>)
      requires Valid()
      modifies this
      ensures Valid()
      ensures Step(db, r) == Generation.RetireIdle(old(db), id, expected, staleBefore)
    {
      hide Inv, Sound;
      SpaceSound(db, RetiresIdle(id, expected, staleBefore));
      SoundInv(db, Generation.RetireIdle(db, id, expected, staleBefore).after);
      var tx := db;
      if id !in tx.workspaces { return Err(NotIdle); }
      var row := tx.workspaces[id];
      if !InState(tx.workflows, row.workflow, Generating) { return Err(NotIdle); }
      if row.workflow !in tx.snapshots || tx.snapshots[row.workflow] != expected { return Err(NotIdle); }
      if row.state != WorkspaceActive || row.turn.Some? || row.idle.None? || row.idle.value > staleBefore { return Err(NotIdle); }
      db := tx.(workspaces := tx.workspaces[id := row.(state := WorkspaceDeleting, turn := None, idle := None)]);
      return Ok(());
    }
  }
}
