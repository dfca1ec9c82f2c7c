/** Each authoring transaction keeps the invariants and the history. */
module AuthoringSteps {
  import opened Base
  import opened Authoring

  ghost predicate Sound(d: Desk, t: Desk) { Inv(t) && Later(d, t) }

  lemma Reflexive(d: Desk)
    ensures Later(d, d)
  {
  }

  // ---- Maps ----

  lemma Inserted<K(!new), V(!new)>(a: map<K, V>, k: K, v: V)
    requires k !in a
    ensures Kept(a, a[k := v])
  {
  }

  lemma SessionMoves(a: map<Id, Session>, k: Id, s: Session)
    requires k in a ==> s.user == a[k].user && s.runtime == a[k].runtime && a[k].current <= s.current
    ensures SessionsStay(a, a[k := s])
  {
  }

  lemma RunMoves(a: map<Id, Run>, k: Id, r: Run)
    requires k in a ==> r == a[k] || (a[k].status == Running && r.owner == a[k].owner && r.runtime == a[k].runtime && r.input == a[k].input)
    ensures RunsStay(a, a[k := r])
    ensures OneRunning(a) && k in a && (r.status == Running ==> a[k].status == Running && r.runtime == a[k].runtime) ==> OneRunning(a[k := r])
  {
  }

  lemma HistoryGrows(sessions: map<Id, Session>, plans: map<PlanKey, Plan>, id: Id, s: Session, plan: Plan)
    requires Contiguous(sessions, plans)
    requires if id in sessions then s.current == sessions[id].current + 1 else s.current == 0
    ensures Contiguous(sessions[id := s], plans[PlanKey(id, s.current) := plan])
    ensures PlanKey(id, s.current) !in plans
  {
  }

  lemma StateMoves(sessions: map<Id, Session>, plans: map<PlanKey, Plan>, id: Id, s: Session)
    requires Contiguous(sessions, plans) && id in sessions && s.current == sessions[id].current
    ensures Contiguous(sessions[id := s], plans)
  {
  }

  // ---- Frames ----

  lemma StageFrame(d: Desk, t: Desk, r: Id)
    requires r in d.stages && StageOk(d, r, d.stages[r]) && SessionsStay(d.sessions, t.sessions) && Kept(d.plans, t.plans)
    requires r in t.runs && r in d.runs && t.runs[r].owner == d.runs[r].owner && t.runs[r].status != Succeeded
    ensures StageOk(t, r, d.stages[r])
  {
  }

  lemma FinalFrame(d: Desk, t: Desk, r: Id)
    requires FinalOk(d, r) && Kept(d.plans, t.plans) && Kept(d.completions, t.completions) && Kept(d.finals, t.finals)
    requires r in t.runs && t.runs[r].owner == d.runs[r].owner
    ensures FinalOk(t, r)
  {
  }

  lemma StagesFrame(d: Desk, t: Desk)
    requires Stages(d) && SessionsStay(d.sessions, t.sessions) && Kept(d.plans, t.plans) && RunsStay(d.runs, t.runs)
    requires Kept(t.stages, d.stages) && forall r <- d.runs :: t.runs[r].status == Succeeded ==> d.runs[r].status == Succeeded || r !in t.stages
    ensures Stages(t)
  {
    hide StageOk, Kept, SessionsStay;
    assert forall r <- t.stages :: r in d.stages && t.stages[r] == d.stages[r] by { Same(t.stages, d.stages); }
    forall r | r in t.stages ensures StageOk(t, r, t.stages[r]) {
      StageRun(d, r);
      StageFrame(d, t, r);
    }
  }

  lemma Same<K(!new), V(!new)>(a: map<K, V>, b: map<K, V>)
    requires Kept(a, b)
    ensures forall k <- a :: k in b && b[k] == a[k]
  {
  }

  lemma StageRun(d: Desk, r: Id)
    requires r in d.stages && StageOk(d, r, d.stages[r])
    ensures r in d.runs && d.runs[r].status != Succeeded
  {
  }

  lemma OperationsFrame(d: Desk, t: Desk)
    requires Operations(d) && t.operations == d.operations && RunsStay(d.runs, t.runs) && Kept(t.stages, d.stages)
    ensures Operations(t)
  {
  }

  lemma FinalsFrame(d: Desk, t: Desk)
    requires Finals(d) && Kept(d.plans, t.plans) && RunsStay(d.runs, t.runs)
    requires t.completions == d.completions && t.finals == d.finals
    requires forall r <- t.runs :: t.runs[r].status == Succeeded ==> r in d.runs && d.runs[r].status == Succeeded
    ensures Finals(t)
  {
    hide FinalOk, Kept;
    Reflexive(d);
    forall r | r in t.runs && t.runs[r].status == Succeeded ensures FinalOk(t, r) {
      FinalFrame(d, t, r);
    }
  }

  /** Steps on sessions, plans and save receipts. */
  lemma PlansSound(d: Desk, t: Desk)
    requires Inv(d) && t == d.(sessions := t.sessions, plans := t.plans, saves := t.saves)
    requires Contiguous(t.sessions, t.plans) && Kept(d.plans, t.plans) && SessionsStay(d.sessions, t.sessions) && Kept(d.saves, t.saves)
    ensures Sound(d, t)
  {
    hide Contiguous, Kept, SessionsStay, RunsStay, OneRunning, Stages, Operations, Finals;
    Reflexive(d);
    ReflexiveStages(d);
    StagesFrame(d, t);
    OperationsFrame(d, t);
    FinalsFrame(d, t);
  }

  /** Steps that move runs, none to success, and may drop stages. */
  lemma RunsSound(d: Desk, t: Desk)
    requires Inv(d) && t == d.(runs := t.runs, stages := t.stages)
    requires RunsStay(d.runs, t.runs) && OneRunning(t.runs) && Kept(t.stages, d.stages)
    requires forall r <- t.runs :: t.runs[r].status == Succeeded ==> r in d.runs && d.runs[r].status == Succeeded
    ensures Sound(d, t)
  {
    Reflexive(d);
    NewRunsFrame(d, t);
    hide Contiguous, Kept, SessionsStay, RunsStay, OneRunning, Stages, Operations, Finals;
    StagesFrame(d, t);
    OperationsFrame(d, t);
    FinalsFrame(d, t);
  }

  lemma NewRunsFrame(d: Desk, t: Desk)
    requires RunsStay(d.runs, t.runs)
    requires forall r <- t.runs :: t.runs[r].status == Succeeded ==> r in d.runs && d.runs[r].status == Succeeded
    ensures forall r <- d.runs :: r in t.runs && (t.runs[r].status == Succeeded ==> d.runs[r].status == Succeeded)
  {
  }

  lemma Stays(d: Desk)
    requires Inv(d)
    ensures Sound(d, d)
  {
    hide Inv, Later;
    Reflexive(d);
  }

  // ---- The steps ----

  lemma CreateSessionSound(d: Desk, id: Id, user: Id, runtime: Id, seed: Plan)
    requires Inv(d)
    ensures Sound(d, CreateSession(d, id, user, runtime, seed).after)
  {
    hide Kept, SessionsStay, Contiguous, Sound, RunsStay, OneRunning, Stages, Operations, Finals;
    var t := CreateSession(d, id, user, runtime, seed).after;
    if t == d { Stays(d); } else {
      Reflexive(d);
      HistoryGrows(d.sessions, d.plans, id, t.sessions[id], seed);
      SessionMoves(d.sessions, id, t.sessions[id]);
      Inserted(d.plans, PlanKey(id, 0), seed);
      PlansSound(d, t);
    }
  }

  lemma MarkSessionSound(d: Desk, id: Id, state: SessionState)
    requires Inv(d)
    ensures Sound(d, MarkSession(d, id, state).after)
  {
    hide Kept, SessionsStay, Contiguous, Sound, RunsStay, OneRunning, Stages, Operations, Finals;
    var t := MarkSession(d, id, state).after;
    if t == d { Stays(d); } else {
      Reflexive(d);
      StateMoves(d.sessions, d.plans, id, t.sessions[id]);
      SessionMoves(d.sessions, id, t.sessions[id]);
      PlansSound(d, t);
    }
  }

  lemma AdvanceSound(d: Desk, session: Id, plan: Plan)
    requires Inv(d) && session in d.sessions
    ensures Sound(d, Advance(d, session, plan)) && PlanKey(session, d.sessions[session].current + 1) !in d.plans
  {
    hide Kept, SessionsStay, Contiguous, Sound, RunsStay, OneRunning, Stages, Operations, Finals;
    var t := Advance(d, session, plan);
    Reflexive(d);
    HistoryGrows(d.sessions, d.plans, session, t.sessions[session], plan);
    SessionMoves(d.sessions, session, t.sessions[session]);
    Inserted(d.plans, PlanKey(session, t.sessions[session].current), plan);
    PlansSound(d, t);
  }

  lemma ReplacePlanSound(d: Desk, session: Id, user: Id, expected: nat, plan: Plan)
    requires Inv(d)
    ensures Sound(d, ReplacePlan(d, session, user, expected, plan).after)
  {
    hide Inv, Sound;
    if ReplacePlan(d, session, user, expected, plan).out.Ok? { AdvanceSound(d, session, plan); } else { Stays(d); }
  }

  lemma SoundThen(d: Desk, m: Desk, t: Desk)
    requires Sound(d, m) && Sound(m, t)
    ensures Sound(d, t)
  {
    hide Inv;
  }

  lemma SaveReceiptSound(d: Desk, k: SaveKey, r: SaveReceipt)
    requires Inv(d) && k !in d.saves
    ensures Sound(d, d.(saves := d.saves[k := r]))
  {
    hide Kept, SessionsStay, Contiguous, Sound, RunsStay, OneRunning, Stages, Operations, Finals;
    Reflexive(d);
    Inserted(d.saves, k, r);
    PlansSound(d, d.(saves := d.saves[k := r]));
  }

  lemma SaveOntoSound(d: Desk, m: Desk, id: Id, user: Id, expected: nat, skey: SaveKey, plan: Plan)
    requires Inv(d) && Sound(d, m) && skey !in m.saves
    ensures Sound(d, SaveOnto(d, m, id, user, expected, skey, plan).after)
  {
    hide Inv, Sound;
    var step := SaveOnto(d, m, id, user, expected, skey, plan);
    if step.out.Err? { Stays(d); } else {
      var a := Advance(m, id, plan);
      SoundInv(d, m);
      AdvanceSound(m, id, plan);
      SoundInv(m, a);
      SaveReceiptSound(a, skey, step.after.saves[skey]);
      SoundThen(d, m, a);
      SoundThen(d, a, step.after);
    }
  }

  lemma SavePlanSound(d: Desk, user: Id, session: Option<Id>, newId: Id, runtime: Id, expected: nat, key: Id, plan: Plan)
    requires Inv(d)
    ensures Sound(d, SavePlan(d, user, session, newId, runtime, expected, key, plan).after)
  {
    hide Inv, Sound, SaveOnto, ReplaySave;
    Stays(d);
    var skey := SaveKey(user, key);
    if skey !in d.saves {
      match session
      case Some(id) => SaveOntoSound(d, d, id, user, expected, skey, plan);
      case None =>
        CreateSessionSound(d, newId, user, runtime, NoPlan);
        SaveOntoSound(d, CreateSession(d, newId, user, runtime, NoPlan).after, newId, user, expected, skey, plan);
    }
  }

  lemma SoundInv(d: Desk, t: Desk)
    requires Sound(d, t)
    ensures Inv(t)
  {
  }

  lemma Dropped(stages: map<Id, Stage>, run: Id)
    ensures Kept(WithoutStage(stages, run), stages)
  {
  }

  lemma RunStopped(d: Desk, run: Id, r: Run)
    requires Inv(d) && run in d.runs && r.status != Succeeded && r.owner == d.runs[run].owner && r.runtime == d.runs[run].runtime
    requires r.input == d.runs[run].input && (d.runs[run].status == Running || r == d.runs[run])
    ensures Sound(d, d.(runs := d.runs[run := r]))
    ensures Sound(d, d.(runs := d.runs[run := r], stages := WithoutStage(d.stages, run)))
  {
    hide Kept, SessionsStay, Contiguous, Sound, RunsStay, OneRunning, Stages, Operations, Finals, WithoutStage;
    Reflexive(d);
    RunMoves(d.runs, run, r);
    Dropped(d.stages, run);
    ReflexiveStages(d);
    RunsSound(d, d.(runs := d.runs[run := r]));
    RunsSound(d, d.(runs := d.runs[run := r], stages := WithoutStage(d.stages, run)));
  }

  lemma ReflexiveStages(d: Desk)
    ensures Kept(d.stages, d.stages)
  {
  }

  lemma StopsSound(d: Desk, op: Op)
    requires Inv(d) && (op.DoTerminateRun? || op.DoEndRun? || op.DoRetryRun?)
    ensures Sound(d, Next(d, op))
  {
    hide Inv, Sound, WithoutStage;
    var t := Next(d, op);
    if t == d { Stays(d); } else { RunStopped(d, op.run, t.runs[op.run]); }
  }

  // ---- Starting, staging, finalizing ----

  lemma StartedRuns(runs: map<Id, Run>, k: Id, r: Run)
    requires OneRunning(runs) && k !in runs && forall j <- runs :: !(runs[j].runtime == r.runtime && runs[j].status == Running)
    ensures OneRunning(runs[k := r]) && RunsStay(runs, runs[k := r])
  {
  }

  lemma OtherStages(d: Desk, t: Desk, run: Id)
    requires Stages(d) && SessionsStay(d.sessions, t.sessions) && Kept(d.plans, t.plans)
    requires forall r <- t.stages :: r == run || (r in d.stages && t.stages[r] == d.stages[r])
    requires forall r <- d.runs :: r in t.runs && t.runs[r].owner == d.runs[r].owner && (r != run ==> t.runs[r].status == d.runs[r].status)
    requires run in t.stages ==> StageOk(t, run, t.stages[run])
    ensures Stages(t)
  {
    hide StageOk, Kept, SessionsStay;
    forall r | r in t.stages ensures StageOk(t, r, t.stages[r]) {
      if r != run {
        StageRun(d, r);
        StageFrame(d, t, r);
      }
    }
  }

  lemma StartRunSound(d: Desk, session: Id, user: Id, key: Id, content: Id, run: Id, runtime: Id, input: Option<nat>)
    requires Inv(d)
    ensures Sound(d, StartRun(d, session, user, key, content, run, runtime, input).after)
  {
    hide Kept, SessionsStay, Contiguous, RunsStay, OneRunning, Stages, Finals, Operations;
    var t := StartRun(d, session, user, key, content, run, runtime, input).after;
    if t == d { Stays(d); } else {
      Reflexive(d);
      StartedRuns(d.runs, run, t.runs[run]);
      Inserted(d.messages, MessageKey(session, key), MessageReceipt(content, run));
      NoStageYet(d, run);
      CurrentStage(d, session);
      OtherStages(d, t, run);
      OperationsStart(d, t, run);
      FinalsFrame(d, t);
    }
  }

  lemma NoStageYet(d: Desk, run: Id)
    requires Stages(d) && Operations(d) && run !in d.runs
    ensures run !in d.stages && forall k <- d.operations :: k.run != run
  {
  }

  lemma CurrentStage(d: Desk, session: Id)
    requires Contiguous(d.sessions, d.plans) && session in d.sessions
    ensures PlanKey(session, d.sessions[session].current) in d.plans
  {
  }

  lemma OperationsStart(d: Desk, t: Desk, run: Id)
    requires Operations(d) && t.operations == d.operations && RunsStay(d.runs, t.runs) && run !in d.runs
    requires forall r <- t.stages :: r == run || (r in d.stages && t.stages[r] == d.stages[r])
    ensures Operations(t)
  {
  }

  lemma OperationsUpdate(d: Desk, t: Desk, run: Id, operation: Id, request: Id)
    requires Operations(d) && run in d.stages && run in d.runs && t.runs == d.runs && OperationKey(run, operation) !in d.operations
    requires run in t.stages && t.stages == d.stages[run := t.stages[run]]
    requires d.stages[run].revision == d.stages[run].base + |d.stages[run].changes|
    requires t.stages[run].base == d.stages[run].base && t.stages[run].revision == d.stages[run].revision + 1
    requires d.stages[run].changes < t.stages[run].changes && |t.stages[run].changes| == |d.stages[run].changes| + 1
    requires t.operations == d.operations[OperationKey(run, operation) :=
                               Operation(request, t.stages[run].revision, t.stages[run].plan, t.stages[run].changes)]
    ensures Operations(t) && Kept(d.operations, t.operations)
  {
  }

  lemma UpdateStageSound(d: Desk, run: Id, attempt: nat, expected: nat, operation: Id, request: Id, plan: Plan, summary: Id)
    requires Inv(d)
    ensures Sound(d, UpdateStage(d, run, attempt, expected, operation, request, plan, summary).after)
  {
    hide Kept, SessionsStay, Contiguous, RunsStay, OneRunning, Finals, Operations;
    var t := UpdateStage(d, run, attempt, expected, operation, request, plan, summary).after;
    if t == d { Stays(d); } else {
      Reflexive(d);
      assert StageOk(d, run, d.stages[run]);
      hide Stages;
      OtherStages(d, t, run);
      OperationsUpdate(d, t, run, operation, request);
      FinalsFrame(d, t);
    }
  }

  lemma OtherFinals(d: Desk, t: Desk, run: Id)
    requires Finals(d) && Kept(d.plans, t.plans) && Kept(d.completions, t.completions) && Kept(d.finals, t.finals)
    requires run in d.runs && run in t.runs && t.runs == d.runs[run := t.runs[run]] && t.runs[run].status == Succeeded
    requires forall r <- t.completions :: r == run || r in d.completions
    requires forall r <- t.finals :: r == run || r in d.finals
    requires FinalOk(t, run)
    ensures Finals(t)
  {
    hide FinalOk, Kept;
    forall r | r in t.runs && t.runs[r].status == Succeeded ensures FinalOk(t, r) {
      if r != run { FinalFrame(d, t, r); }
    }
  }

  lemma FinalHistory(sessions: map<Id, Session>, plans: map<PlanKey, Plan>, stage: Stage)
    requires Contiguous(sessions, plans) && stage.session in sessions && sessions[stage.session].current == stage.base
    ensures Contiguous(FinalSessions(sessions, stage), FinalPlans(plans, stage))
    ensures Kept(plans, FinalPlans(plans, stage)) && SessionsStay(sessions, FinalSessions(sessions, stage))
  {
    hide Kept, SessionsStay, Contiguous;
    SessionsRefl(sessions, plans);
    if stage.changes != [] {
      var next := FinalSessions(sessions, stage)[stage.session];
      HistoryGrows(sessions, plans, stage.session, next, stage.plan);
      SessionMoves(sessions, stage.session, next);
      Inserted(plans, PlanKey(stage.session, stage.base + 1), stage.plan);
    }
  }

  lemma SessionsRefl(sessions: map<Id, Session>, plans: map<PlanKey, Plan>)
    ensures Kept(plans, plans) && SessionsStay(sessions, sessions)
  {
  }

  lemma FreshFinal(d: Desk, run: Id)
    requires Finals(d) && run in d.runs && d.runs[run].status != Succeeded
    ensures run !in d.completions && run !in d.finals
  {
  }

  /** The revision a finalization answers is in the history. */
  lemma FinalRecorded(d: Desk, run: Id, attempt: nat, content: Id)
    requires run in d.runs && d.runs[run].status == Running && FinalizeRun(d, run, attempt, content).out.Ok?
    requires run in d.stages && StageOk(d, run, d.stages[run])
    ensures FinalOk(FinalizeRun(d, run, attempt, content).after, run)
  {
  }

  lemma FinalizeRunSound(d: Desk, run: Id, attempt: nat, content: Id)
    requires Inv(d)
    ensures Sound(d, FinalizeRun(d, run, attempt, content).after)
  {
    hide Kept, SessionsStay, Contiguous, RunsStay, OneRunning, Finals, Operations, FinalOk, WithoutStage, FinalPlans, FinalSessions;
    var t := FinalizeRun(d, run, attempt, content).after;
    if t == d { Stays(d); } else {
      Reflexive(d);
      assert StageOk(d, run, d.stages[run]);
      hide StageOk, Stages;
      var stage := d.stages[run];
      FinalHistory(d.sessions, d.plans, stage);
      FreshFinal(d, run);
      FinalRecorded(d, run, attempt, content);
      Inserted(d.completions, run, t.completions[run]);
      Inserted(d.finals, run, t.finals[run]);
      RunMoves(d.runs, run, t.runs[run]);
      OtherFinals(d, t, run);
      DroppedOne(d.stages, run);
      OtherStages(d, t, run);
      OperationsDrop(d, t, run);
    }
  }

  lemma DroppedOne(stages: map<Id, Stage>, run: Id)
    ensures run !in WithoutStage(stages, run)
    ensures forall r <- WithoutStage(stages, run) :: r in stages && WithoutStage(stages, run)[r] == stages[r]
  {
  }

  lemma OperationsDrop(d: Desk, t: Desk, run: Id)
    requires Operations(d) && t.operations == d.operations && RunsStay(d.runs, t.runs)
    requires forall r <- t.stages :: r in d.stages && t.stages[r] == d.stages[r]
    ensures Operations(t)
  {
  }

  lemma NextSound(d: Desk, op: Op)
    requires Inv(d)
    ensures Sound(d, Next(d, op))
  {
    hide Inv, Sound, CreateSession, MarkSession, StartRun, UpdateStage, FinalizeRun, ReplacePlan, SavePlan;
    match op {
      case DoCreateSession(id, user, runtime, seed) => CreateSessionSound(d, id, user, runtime, seed);
      case DoMarkSession(id, state) => MarkSessionSound(d, id, state);
      case DoStartRun(session, user, key, content, run, runtime, input) => StartRunSound(d, session, user, key, content, run, runtime, input);
      case DoUpdateStage(run, attempt, expected, operation, request, plan, summary) =>
        UpdateStageSound(d, run, attempt, expected, operation, request, plan, summary);
      case DoFinalizeRun(run, attempt, content) => FinalizeRunSound(d, run, attempt, content);
      case DoTerminateRun(_, _) => StopsSound(d, op);
      case DoEndRun(_, _) => StopsSound(d, op);
      case DoRetryRun(_, _, _) => StopsSound(d, op);
      case DoReplacePlan(session, user, expected, plan) => ReplacePlanSound(d, session, user, expected, plan);
      case DoSavePlan(user, onto, newId, runtime, expected, key, plan) => SavePlanSound(d, user, onto, newId, runtime, expected, key, plan);
    }
  }
}
