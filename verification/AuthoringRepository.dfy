/** The authoring repository: each method is one transaction on the tables. */
module AuthoringRepository {
  import opened Base
  import opened Authoring
  import opened AuthoringSteps
  import opened AuthoringTheorems

  class Repository {
    var db: Desk

    ghost predicate Valid()
      reads this
    {
      Inv(db)
    }

    constructor ()
      ensures Valid() && db == Empty
    {
      db := Empty;
      EmptyInv();
    }

    method StartRun(session: Id, user: Id, key: Id, content: Id, run: Id, runtime: Id, input: Option<nat>)
      returns (r: Outcome<(Id, Option<Stage>)>)
      requires Valid()
      modifies this
      ensures Valid()
      ensures Step(db, r) == Authoring.StartRun(old(db), session, user, key, content, run, runtime, input)
    {
      hide Inv, Sound;
      StartRunSound(db, session, user, key, content, run, runtime, input);
      SoundInv(db, Authoring.StartRun(db, session, user, key, content, run, runtime, input).after);
      var tx := db;
      if !Owns(tx.sessions, session, user) { return Err(NotFound); }
      var rkey := MessageKey(session, key);
      if rkey in tx.messages {
        if tx.messages[rkey].content != content { return Err(Conflict); }
        return Ok((tx.messages[rkey].run, None));
      }
      var s := tx.sessions[session];
      if !s.state.AllowsStage() || runtime != s.runtime { return Err(InvalidState); }
      if exists active <- tx.runs :: tx.runs[active].runtime == runtime && tx.runs[active].status == Running { return Err(RunActive); }
      if PlanKey(session, s.current) !in tx.plans { return Err(NotFound); }
      if run in tx.runs { return Err(Constraint); }
      tx := tx.(runs := tx.runs[run := Run(runtime, session, Running, 1, input)]);
      var stage := Stage(session, s.current, s.current, 1, tx.plans[PlanKey(session, s.current)], []);
      tx := tx.(stages := tx.stages[run := stage]);
      tx := tx.(messages := tx.messages[rkey := MessageReceipt(content, run)]);
      db := tx;
      return Ok((run, Some(stage)));
    }

    method UpdateStage(run: Id, attempt: nat, expected: nat, operation: Id, request: Id, plan: Plan, summary: Id)
      returns (r: Outcome<Stage>)
      requires Valid()
      modifies this
      ensures Valid()
      ensures Step(db, r) == Authoring.UpdateStage(old(db), run, attempt, expected, operation, request, plan, summary)
    {
      hide Inv, Sound;
      UpdateStageSound(db, run, attempt, expected, operation, request, plan, summary);
      SoundInv(db, Authoring.UpdateStage(db, run, attempt, expected, operation, request, plan, summary).after);
      var tx := db;
      if run !in tx.stages { return Err(NotFound); }
      var stage := tx.stages[run];
      if stage.attempt != attempt { return Err(RunActive); }
      if !Live(tx.runs, run) || tx.runs[run].owner != stage.session || tx.runs[run].attempt != attempt { return Err(RunActive); }
      var okey := OperationKey(run, operation);
      if okey in tx.operations {
        if tx.operations[okey].request != request { return Err(Conflict); }
        var recorded := tx.operations[okey];
        var replay := stage;
        replay := replay.(revision := recorded.revision);
        replay := replay.(plan := recorded.plan, changes := recorded.changes);
        return Ok(replay);
      }
      if stage.revision != expected { return Err(Conflict); }
      if stage.session !in tx.sessions { return Err(NotFound); }
      var change := Change(summary, stage.base + 1);
      stage := stage.(changes := stage.changes + [change]);
      stage := stage.(revision := stage.revision + 1);
      stage := stage.(plan := plan);
      tx := tx.(stages := tx.stages[run := stage]);
      tx := tx.(operations := tx.operations[okey := Operation(request, stage.revision, plan, stage.changes)]);
      db := tx;
      return Ok(stage);
    }

    method FinalizeRun(run: Id, attempt: nat, content: Id) returns (r: Outcome<Revision>)
      requires Valid()
      modifies this
      ensures Valid()
      ensures Step(db, r) == Authoring.FinalizeRun(old(db), run, attempt, content)
    {
      hide Inv, Sound;
      FinalizeRunSound(db, run, attempt, content);
      SoundInv(db, Authoring.FinalizeRun(db, run, attempt, content).after);
      var tx := db;
      if run !in tx.runs { return Err(NotFound); }
      var current := tx.runs[run];
      if current.attempt != attempt { return Err(RunActive); }
      if current.status == Succeeded { return ReplayFinal(tx, run, content); }
      if current.status != Running { return Err(RunActive); }
      if run !in tx.stages { return Err(NotFound); }
      var stage := tx.stages[run];
      if stage.attempt != attempt || stage.session != current.owner { return Err(RunActive); }
      if stage.session !in tx.sessions { return Err(NotFound); }
      var session := tx.sessions[stage.session];
      if session.runtime != current.runtime || session.current != stage.base || !session.state.AllowsStage() { return Err(InvalidState); }
      var revision := Revision(session.current, stage.plan);
      if |stage.changes| > 0 {
        if !stage.plan.valid { return Err(InvalidState); }
        revision := revision.(number := stage.base + 1);
        if PlanKey(stage.session, revision.number) in tx.plans { return Err(Constraint); }
        tx := tx.(plans := tx.plans[PlanKey(stage.session, revision.number) := stage.plan]);
        tx := tx.(sessions := tx.sessions[stage.session := session.(current := revision.number, state := IntentReview)]);
      }
      if run in tx.completions { return Err(Constraint); }
      tx := tx.(completions := tx.completions[run := Completion(content, stage.changes)]);
      tx := tx.(runs := tx.runs[run := current.(status := Succeeded)]);
      tx := tx.(stages := WithoutStage(tx.stages, run));
      tx := tx.(finals := tx.finals[run := (stage.base, revision)]);
      db := tx;
      return Ok(revision);
    }

    method TerminateRun(run: Id, failed: bool) returns (r: Outcome<()>)
      requires Valid()
      modifies this
      ensures Valid()
      ensures Step(db, r) == Authoring.TerminateRun(old(db), run, failed)
    {
      hide Inv, Sound;
      StopsSound(db, DoTerminateRun(run, failed));
      SoundInv(db, Authoring.TerminateRun(db, run, failed).after);
      var tx := db;
      if run !in tx.runs { return Err(NotFound); }
      var current := tx.runs[run];
      if current.owner !in tx.sessions { return Err(NotFound); }
      if tx.sessions[current.owner].runtime != current.runtime { return Err(InvalidState); }
      var status := Interrupted;
      if failed { status := Failed; }
      if current.status == Running {
        tx := tx.(runs := tx.runs[run := current.(status := status)]);
      } else if current.status != status {
        return Err(RunActive);
      }
      assert tx.runs == db.runs[run := current.(status := status)];
      tx := tx.(stages := WithoutStage(tx.stages, run));
      db := tx;
      return Ok(());
    }

    method ReplacePlan(session: Id, user: Id, expected: nat, plan: Plan) returns (r: Outcome<Revision>)
      requires Valid()
      modifies this
      ensures Valid()
      ensures Step(db, r) == Authoring.ReplacePlan(old(db), session, user, expected, plan)
    {
      hide Inv, Sound;
      ReplacePlanSound(db, session, user, expected, plan);
      SoundInv(db, Authoring.ReplacePlan(db, session, user, expected, plan).after);
      var tx := db;
      if !plan.valid { return Err(Invalid); }
      if !Owns(tx.sessions, session, user) { return Err(NotFound); }
      var s := tx.sessions[session];
      if s.current != expected { return Err(Conflict); }
      var next := expected + 1;
      if PlanKey(session, next) in tx.plans { return Err(Constraint); }
      tx := tx.(plans := tx.plans[PlanKey(session, next) := plan]);
      tx := tx.(sessions := tx.sessions[session := s.(current := next, state := IntentReview)]);
      db := tx;
      return Ok(Revision(next, plan));
    }

    method SavePlan(user: Id, session: Option<Id>, newId: Id, runtime: Id, expected: nat, key: Id, plan: Plan)
      returns (r: Outcome<(Id, Revision)>)
      requires Valid()
      modifies this
      ensures Valid()
      ensures Step(db, r) == Authoring.SavePlan(old(db), user, session, newId, runtime, expected, key, plan)
    {
      hide Inv, Sound;
      SavePlanSound(db, user, session, newId, runtime, expected, key, plan);
      SoundInv(db, Authoring.SavePlan(db, user, session, newId, runtime, expected, key, plan).after);
      var tx := db;
      if session.None? && expected != 0 { return Err(Conflict); }
      if !plan.valid { return Err(Invalid); }
      var skey := SaveKey(user, key);
      if skey in tx.saves { return ReplaySave(tx, user, session, expected, tx.saves[skey], plan); }
      var id := newId;
      if session.Some? {
        id := session.value;
      } else {
        if id in tx.sessions || PlanKey(id, 0) in tx.plans { return Err(Constraint); }
        tx := tx.(sessions := tx.sessions[id := Session(user, runtime, DraftConversation, 0)]);
        tx := tx.(plans := tx.plans[PlanKey(id, 0) := NoPlan]);
      }
      if !Owns(tx.sessions, id, user) { return Err(NotFound); }
      var s := tx.sessions[id];
      if s.current != expected { return Err(Conflict); }
      var next := expected + 1;
      if PlanKey(id, next) in tx.plans { return Err(Constraint); }
      tx := tx.(plans := tx.plans[PlanKey(id, next) := plan]);
      tx := tx.(sessions := tx.sessions[id := s.(current := next, state := IntentReview)]);
      tx := tx.(saves := tx.saves[skey := SaveReceipt(id, expected, next, plan)]);
      db := tx;
      return Ok((id, Revision(next, plan)));
    }
  }
}
