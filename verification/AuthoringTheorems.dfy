/** What the plan history promises over every run, and what replays return. */
module AuthoringTheorems {
  import opened Base
  import opened Authoring
  import opened AuthoringSteps

  lemma LaterThen(d: Desk, m: Desk, t: Desk)
    requires Later(d, m) && Later(m, t)
    ensures Later(d, t)
  {
  }

  lemma {:induction false} AfterSound(d: Desk, ops: seq<Op>)
    requires Inv(d)
    ensures Inv(After(d, ops)) && Later(d, After(d, ops))
  {
    hide Inv, Next, Later;
    Reflexive(d);
    if ops != [] {
      var m := After(d, ops[..|ops| - 1]);
      AfterSound(d, ops[..|ops| - 1]);
      NextSound(m, ops[|ops| - 1]);
      LaterThen(d, m, Next(m, ops[|ops| - 1]));
    }
  }

  lemma EmptyInv()
    ensures Inv(Empty)
  {
  }

  // ---- The history ----

  /** Each session's plans are numbered without gap from 0 to its current revision, and none has another number. */
  lemma HistoryIsContiguous(ops: seq<Op>, session: Id, n: nat)
    ensures var d := After(Empty, ops);
            PlanKey(session, n) in d.plans <==> session in d.sessions && n <= d.sessions[session].current
  {
    hide After;
    EmptyInv();
    AfterSound(Empty, ops);
  }

  /** A plan revision, once there, is never changed or removed. */
  lemma RevisionsAreForever(ops: seq<Op>, more: seq<Op>, k: PlanKey)
    requires k in After(Empty, ops).plans
    ensures k in After(After(Empty, ops), more).plans && After(After(Empty, ops), more).plans[k] == After(Empty, ops).plans[k]
  {
    hide After;
    EmptyInv();
    AfterSound(Empty, ops);
    AfterSound(After(Empty, ops), more);
  }

  /** Who moved the session on had read the revision before: the new one is based on exactly its predecessor. */
  ghost predicate BasedOn(d: Desk, op: Op, session: Id, base: nat, plan: Plan) {
    match op
    case DoReplacePlan(s, _, expected, p) => s == session && expected == base && p == plan
    case DoFinalizeRun(run, _, _) =>
      run in d.stages && d.stages[run].session == session && d.stages[run].base == base && d.stages[run].plan == plan && d.stages[run].changes != []
    case DoSavePlan(_, onto, _, _, expected, _, p) => onto == Some(session) && expected == base && p == plan
    case _ => false
  }

  /** The session moved on by one revision, which this operation based on the one before. */
  ghost predicate MovedOn(d: Desk, t: Desk, op: Op, session: Id) {
    && session in d.sessions && session in t.sessions && t.sessions[session].current == d.sessions[session].current + 1
    && var next := PlanKey(session, d.sessions[session].current + 1);
       next in t.plans && BasedOn(d, op, session, d.sessions[session].current, t.plans[next])
  }

  ghost predicate StoodStill(d: Desk, t: Desk, session: Id)
    requires session in d.sessions
  {
    session in t.sessions && t.sessions[session].current == d.sessions[session].current
  }

  lemma AdvanceMoves(d: Desk, session: Id, plan: Plan, s: Id)
    requires session in d.sessions && s in d.sessions
    ensures var t := Advance(d, session, plan);
            var next := PlanKey(session, d.sessions[session].current + 1);
            && s in t.sessions && t.stages == d.stages && next in t.plans && t.plans[next] == plan
            && t.sessions[s].current == d.sessions[s].current + (if s == session then 1 else 0)
  {
  }

  lemma ReplaceMoves(d: Desk, session: Id, user: Id, expected: nat, plan: Plan, s: Id)
    requires s in d.sessions
    ensures var t := ReplacePlan(d, session, user, expected, plan).after;
            StoodStill(d, t, s) || MovedOn(d, t, DoReplacePlan(session, user, expected, plan), s)
  {
    hide Advance;
    if session in d.sessions { AdvanceMoves(d, session, plan, s); }
  }

  lemma FinalizeMoves(d: Desk, run: Id, attempt: nat, content: Id, s: Id)
    requires s in d.sessions
    ensures var t := FinalizeRun(d, run, attempt, content).after;
            StoodStill(d, t, s) || MovedOn(d, t, DoFinalizeRun(run, attempt, content), s)
  {
    hide ReplayFinal, WithoutStage;
  }

  lemma SaveOntoMoves(d: Desk, m: Desk, id: Id, user: Id, expected: nat, skey: SaveKey, plan: Plan, s: Id)
    requires s in m.sessions
    ensures var t := SaveOnto(d, m, id, user, expected, skey, plan);
            if t.out.Err? then t.after == d
            else id in m.sessions && m.sessions[id].current == expected && t.after.stages == m.stages && s in t.after.sessions
                 && t.after.sessions[s].current == m.sessions[s].current + (if s == id then 1 else 0)
                 && PlanKey(id, expected + 1) in t.after.plans && t.after.plans[PlanKey(id, expected + 1)] == plan
  {
    hide Advance;
    if id in m.sessions { AdvanceMoves(m, id, plan, s); }
  }

  lemma OpenedKeeps(d: Desk, id: Id, user: Id, runtime: Id, seed: Plan)
    ensures var t := CreateSession(d, id, user, runtime, seed);
            t.out.Ok? ==> t.after.stages == d.stages && id !in d.sessions && id in t.after.sessions
                          && forall s <- d.sessions :: s in t.after.sessions && t.after.sessions[s] == d.sessions[s]
  {
  }

  lemma SaveMoves(d: Desk, user: Id, onto: Option<Id>, newId: Id, runtime: Id, expected: nat, key: Id, plan: Plan, s: Id)
    requires s in d.sessions
    ensures var t := SavePlan(d, user, onto, newId, runtime, expected, key, plan).after;
            StoodStill(d, t, s) || MovedOn(d, t, DoSavePlan(user, onto, newId, runtime, expected, key, plan), s)
  {
    hide ReplaySave, SaveOnto, CreateSession;
    if onto.Some? { SaveOntoMoves(d, d, onto.value, user, expected, SaveKey(user, key), plan, s); } else {
      var ready := CreateSession(d, newId, user, runtime, NoPlan);
      OpenedKeeps(d, newId, user, runtime, NoPlan);
      if ready.out.Ok? { SaveOntoMoves(d, ready.after, newId, user, expected, SaveKey(user, key), plan, s); }
    }
  }

  /** No update is lost: whenever a session moves on, it is by one revision, whose author had read the current one. */
  lemma NoUpdateIsLost(d: Desk, op: Op, session: Id)
    requires session in d.sessions
    ensures StoodStill(d, Next(d, op), session) || MovedOn(d, Next(d, op), op, session)
  {
    hide MovedOn, FinalizeRun, SavePlan, ReplacePlan, ReplayFinal;
    match op {
      case DoReplacePlan(s, user, expected, plan) => ReplaceMoves(d, s, user, expected, plan, session);
      case DoFinalizeRun(run, attempt, content) => FinalizeMoves(d, run, attempt, content, session);
      case DoSavePlan(user, onto, newId, runtime, expected, key, plan) => SaveMoves(d, user, onto, newId, runtime, expected, key, plan, session);
      case _ => OthersStand(d, op, session);
    }
  }

  lemma OthersStand(d: Desk, op: Op, session: Id)
    requires session in d.sessions && !op.DoReplacePlan? && !op.DoFinalizeRun? && !op.DoSavePlan?
    ensures StoodStill(d, Next(d, op), session)
  {
    hide FinalizeRun, SavePlan, ReplacePlan, StartRun, UpdateStage;
    if op.DoStartRun? || op.DoUpdateStage? { StagingStands(d, op, session); }
  }

  lemma StagingStands(d: Desk, op: Op, session: Id)
    requires session in d.sessions && (op.DoStartRun? || op.DoUpdateStage?)
    ensures StoodStill(d, Next(d, op), session)
  {
    hide FinalizeRun, SavePlan, ReplacePlan, CreateSession, MarkSession, TerminateRun, EndRun, RetryRun;
  }

  /** A stage is as far from its base as it has changes; without changes it holds the base's plan. */
  lemma StageCounts(ops: seq<Op>, run: Id)
    requires run in After(Empty, ops).stages
    ensures var d := After(Empty, ops);
            var stage := d.stages[run];
            && stage.revision == stage.base + |stage.changes|
            && (stage.changes == [] ==> PlanKey(stage.session, stage.base) in d.plans && stage.plan == d.plans[PlanKey(stage.session, stage.base)])
  {
    hide After;
    EmptyInv();
    AfterSound(Empty, ops);
    assert StageOk(After(Empty, ops), run, After(Empty, ops).stages[run]);
  }

  /** A turn without changes ends in the base revision itself, and adds none. */
  lemma NothingChanged(d: Desk, run: Id, attempt: nat, content: Id)
    requires Inv(d) && run in d.stages && d.stages[run].changes == [] && FinalizeRun(d, run, attempt, content).out.Ok?
    ensures var step := FinalizeRun(d, run, attempt, content);
            var key := PlanKey(d.stages[run].session, d.stages[run].base);
            key in d.plans && step.out == Ok(Revision(key.revision, d.plans[key])) && step.after.plans == d.plans
  {
    assert StageOk(d, run, d.stages[run]);
  }

  /** One agent run at a time in a conversation. */
  lemma OneRunAtATime(ops: seq<Op>, a: Id, b: Id)
    requires var runs := After(Empty, ops).runs;
             Live(runs, a) && Live(runs, b) && runs[a].runtime == runs[b].runtime
    ensures a == b
  {
    hide After;
    EmptyInv();
    AfterSound(Empty, ops);
  }

  // ---- Replays ----

  lemma ReceiptReplays(u: Desk, session: Id, user: Id, key: Id, content: Id, first: Id, run: Id, runtime: Id, input: Option<nat>, again: Id)
    requires Owns(u.sessions, session, user) && MessageKey(session, key) in u.messages
    requires u.messages[MessageKey(session, key)] == MessageReceipt(content, first)
    ensures StartRun(u, session, user, key, again, run, runtime, input)
            == (if again == content then Step(u, Ok((first, None))) else Refuse(u, Conflict))
  {
  }

  /** A repeated message never starts another run: it names the first, whatever happened since. */
  lemma StartIsOnce(d: Desk, more: seq<Op>, session: Id, user: Id, key: Id, content: Id, run: Id, runtime: Id, input: Option<nat>,
                    content': Id, run': Id, runtime': Id, input': Option<nat>)
    requires Inv(d) && StartRun(d, session, user, key, content, run, runtime, input).out.Ok?
    ensures var first := StartRun(d, session, user, key, content, run, runtime, input);
            var u := After(first.after, more);
            StartRun(u, session, user, key, content', run', runtime', input')
              == (if content' == content then Step(u, Ok((first.out.value.0, None))) else Refuse(u, Conflict))
  {
    hide After, Inv;
    var first := StartRun(d, session, user, key, content, run, runtime, input);
    StartRunSound(d, session, user, key, content, run, runtime, input);
    AfterSound(first.after, more);
    ReceiptReplays(After(first.after, more), session, user, key, content, first.out.value.0, run', runtime', input', content');
  }

  /** The same stage, as it was or edited. */
  predicate Furthers(a: Stage, b: Stage) {
    && b.session == a.session && b.base == a.base && b.attempt == a.attempt
    && a.revision <= b.revision && (a.revision == b.revision ==> a == b)
  }

  ghost predicate SameStage(d: Desk, t: Desk, run: Id) {
    run in t.stages ==> run in d.stages && Furthers(d.stages[run], t.stages[run])
  }

  lemma FinalizeStage(d: Desk, run: Id, attempt: nat, content: Id, r: Id)
    ensures SameStage(d, FinalizeRun(d, run, attempt, content).after, r)
  {
    hide ReplayFinal, FinalPlans, FinalSessions;
  }

  lemma SaveStage(d: Desk, user: Id, onto: Option<Id>, newId: Id, runtime: Id, expected: nat, key: Id, plan: Plan)
    ensures SavePlan(d, user, onto, newId, runtime, expected, key, plan).after.stages == d.stages
  {
    hide ReplaySave, CreateSession;
    OpenedKeeps(d, newId, user, runtime, NoPlan);
  }

  lemma StagingStage(d: Desk, op: Op, run: Id)
    requires run in d.runs && (op.DoStartRun? || op.DoUpdateStage?)
    ensures SameStage(d, Next(d, op), run)
  {
    hide FinalizeRun, SavePlan, CreateSession, MarkSession, TerminateRun, EndRun, RetryRun, ReplacePlan;
  }

  lemma StageStep(d: Desk, op: Op, run: Id)
    requires run in d.runs
    ensures SameStage(d, Next(d, op), run)
  {
    hide FinalizeRun, SavePlan, StartRun, UpdateStage;
    match op {
      case DoStartRun(_, _, _, _, _, _, _) => StagingStage(d, op, run);
      case DoUpdateStage(_, _, _, _, _, _, _) => StagingStage(d, op, run);
      case DoFinalizeRun(r, attempt, content) => FinalizeStage(d, r, attempt, content, run);
      case DoSavePlan(user, onto, newId, runtime, expected, key, plan) => SaveStage(d, user, onto, newId, runtime, expected, key, plan);
      case _ =>
    }
  }

  /** A stage that is still there is the stage it was, further on. */
  lemma {:induction false} StageLater(d: Desk, ops: seq<Op>, run: Id)
    requires Inv(d) && run in d.runs && run in After(d, ops).stages
    ensures run in d.stages && Furthers(d.stages[run], After(d, ops).stages[run])
  {
    hide Inv, Next, Later;
    if ops != [] {
      var m := After(d, ops[..|ops| - 1]);
      AfterSound(d, ops[..|ops| - 1]);
      RunLater(d, m, run);
      StageStep(m, ops[|ops| - 1], run);
      StageLater(d, ops[..|ops| - 1], run);
    }
  }

  lemma RunLater(d: Desk, m: Desk, run: Id)
    requires Later(d, m) && run in d.runs
    ensures run in m.runs && m.runs[run].owner == d.runs[run].owner
  {
  }

  lemma UpdateRecorded(d: Desk, run: Id, attempt: nat, expected: nat, operation: Id, request: Id, plan: Plan, summary: Id)
    requires UpdateStage(d, run, attempt, expected, operation, request, plan, summary).out.Ok?
    ensures var step := UpdateStage(d, run, attempt, expected, operation, request, plan, summary);
            var key := OperationKey(run, operation);
            && run in d.runs && run in step.after.runs && run in step.after.stages && key in step.after.operations
            && step.after.operations[key].request == request
            && step.out.value == Replayed(step.after.stages[run], step.after.operations[key])
            && step.after.stages[run].attempt == attempt && step.after.runs[run].owner == step.after.stages[run].session
  {
  }

  /** Replaying an operation while its stage lives returns what the operation left, whatever followed it. */
  lemma OperationIsOnce(d: Desk, more: seq<Op>, run: Id, attempt: nat, expected: nat, operation: Id, request: Id, plan: Plan, summary: Id,
                        expected': nat, request': Id, plan': Plan, summary': Id)
    requires Inv(d) && UpdateStage(d, run, attempt, expected, operation, request, plan, summary).out.Ok?
    requires var u := After(UpdateStage(d, run, attempt, expected, operation, request, plan, summary).after, more);
             run in u.stages && Live(u.runs, run) && u.runs[run].attempt == attempt
    ensures var first := UpdateStage(d, run, attempt, expected, operation, request, plan, summary);
            var u := After(first.after, more);
            UpdateStage(u, run, attempt, expected', operation, request', plan', summary')
              == (if request' == request then Step(u, first.out) else Refuse(u, Conflict))
  {
    hide After, Inv;
    UpdateRecorded(d, run, attempt, expected, operation, request, plan, summary);
    var first := UpdateStage(d, run, attempt, expected, operation, request, plan, summary);
    UpdateStageSound(d, run, attempt, expected, operation, request, plan, summary);
    AfterSound(first.after, more);
    StageLater(first.after, more, run);
  }

  // ---- Where an edit goes ----

  /** An edit puts its plan into the stage, and says in which revision it will be found. */
  lemma EditIsStaged(d: Desk, run: Id, attempt: nat, expected: nat, operation: Id, request: Id, plan: Plan, summary: Id)
    requires OperationKey(run, operation) !in d.operations
    requires UpdateStage(d, run, attempt, expected, operation, request, plan, summary).out.Ok?
    ensures var step := UpdateStage(d, run, attempt, expected, operation, request, plan, summary);
            var stage, op := step.out.value, OperationKey(run, operation);
            && run in d.stages && d.stages[run].revision == expected
            && stage.plan == plan && stage.revision == expected + 1
            && stage.changes == d.stages[run].changes + [Change(summary, stage.base + 1)]
            && run in step.after.stages && step.after.stages[run] == stage && Furthers(d.stages[run], stage)
            && op in step.after.operations && step.after.operations[op] == Operation(request, stage.revision, plan, stage.changes)
  {
  }

  /** The last edit of a run is what the run is finalized with: whatever happened between, if no other edit did, the
      stage still holds its plan; a finalization makes that plan the revision it announced, for good. */
  lemma LastEditArrives(d: Desk, run: Id, attempt: nat, expected: nat, operation: Id, request: Id, plan: Plan, summary: Id,
                        more: seq<Op>, attempt': nat, content: Id, ever: seq<Op>)
    requires Inv(d) && OperationKey(run, operation) !in d.operations
    requires UpdateStage(d, run, attempt, expected, operation, request, plan, summary).out.Ok?
    requires var u := After(UpdateStage(d, run, attempt, expected, operation, request, plan, summary).after, more);
             run in u.stages && u.stages[run].revision == expected + 1
    ensures var u := After(UpdateStage(d, run, attempt, expected, operation, request, plan, summary).after, more);
            var stage, final := u.stages[run], FinalizeRun(u, run, attempt', content);
            var arrived, t := PlanKey(stage.session, stage.base + 1), After(final.after, ever);
            && stage.plan == plan && stage.changes == d.stages[run].changes + [Change(summary, stage.base + 1)]
            && (final.out.Ok? ==>
                  && final.out.value == Revision(stage.base + 1, plan)
                  && arrived in t.plans && t.plans[arrived] == plan
                  && run !in final.after.stages && stage.session in final.after.sessions && final.after.sessions[stage.session].state == IntentReview
                  && run in t.completions && t.completions[run].changes == stage.changes)
  {
    hide After, Inv, UpdateStage, FinalizeRun, Later;
    EditIsStaged(d, run, attempt, expected, operation, request, plan, summary);
    var first := UpdateStage(d, run, attempt, expected, operation, request, plan, summary);
    UpdateStageSound(d, run, attempt, expected, operation, request, plan, summary);
    StageHasRun(first.after, run);
    AfterSound(first.after, more);
    StageLater(first.after, more, run);
    var u := After(first.after, more);
    var final := FinalizeRun(u, run, attempt', content);
    if final.out.Ok? {
      StageIsFinal(u, run, attempt', content);
      FinalizeRunSound(u, run, attempt', content);
      AfterSound(final.after, ever);
      PlansKept(final.after, After(final.after, ever));
    }
  }

  lemma StageHasRun(d: Desk, run: Id)
    requires Inv(d) && run in d.stages
    ensures run in d.runs && d.runs[run].status != Succeeded
  {
    assert StageOk(d, run, d.stages[run]);
  }

  lemma PlansKept(d: Desk, t: Desk)
    requires Later(d, t)
    ensures Kept(d.plans, t.plans) && Kept(d.completions, t.completions)
  {
  }

  lemma StageIsFinal(d: Desk, run: Id, attempt: nat, content: Id)
    requires Inv(d) && run in d.stages && d.stages[run].changes != [] && FinalizeRun(d, run, attempt, content).out.Ok?
    ensures var stage, step := d.stages[run], FinalizeRun(d, run, attempt, content);
            var key := PlanKey(stage.session, stage.base + 1);
            && step.out.value == Revision(stage.base + 1, stage.plan) && key in step.after.plans && step.after.plans[key] == stage.plan
            && stage.session in step.after.sessions && step.after.sessions[stage.session].state == IntentReview
            && run !in step.after.stages
            && run in step.after.completions && step.after.completions[run] == Completion(content, stage.changes)
  {
    StageHasRun(d, run);
  }

  /** In every run an edit under a fresh operation is accepted exactly from the live attempt the stage was opened for,
      made on the stage as it is. */
  lemma EditsIff(ops: seq<Op>, run: Id, attempt: nat, expected: nat, operation: Id, request: Id, plan: Plan, summary: Id)
    requires OperationKey(run, operation) !in After(Empty, ops).operations
    ensures var d := After(Empty, ops);
            UpdateStage(d, run, attempt, expected, operation, request, plan, summary).out.Ok?
            <==> && run in d.stages && d.stages[run].attempt == attempt && d.stages[run].revision == expected
                 && Live(d.runs, run) && d.runs[run].attempt == attempt
  {
    hide After;
    EmptyInv();
    AfterSound(Empty, ops);
    var d := After(Empty, ops);
    if run in d.stages { assert StageOk(d, run, d.stages[run]); }
  }

  /** In every run a live stage is finalized exactly by its own attempt, unless the session has moved on or is closed to
      stages, or the edited plan is not valid. */
  lemma FinalizesIff(ops: seq<Op>, run: Id, attempt: nat, content: Id)
    requires var d := After(Empty, ops); run in d.stages && Live(d.runs, run)
    ensures var d := After(Empty, ops);
            var stage := d.stages[run];
            && stage.session in d.sessions
            && var s := d.sessions[stage.session];
               FinalizeRun(d, run, attempt, content).out.Ok?
               <==> && d.runs[run].attempt == attempt && stage.attempt == attempt
                    && s.runtime == d.runs[run].runtime && s.state.AllowsStage() && s.current == stage.base
                    && (stage.changes != [] ==> stage.plan.valid)
  {
    hide After;
    EmptyInv();
    AfterSound(Empty, ops);
    var d := After(Empty, ops);
    assert StageOk(d, run, d.stages[run]);
  }

  /** The turn's stage is the session's current plan, unedited, and nothing else has changed but for the receipt. */
  ghost predicate StartedFromCurrent(d: Desk, t: Desk, session: Id, run: Id) {
    && session in d.sessions && PlanKey(session, d.sessions[session].current) in d.plans
    && var current := d.sessions[session].current;
       && Live(t.runs, run) && run in t.stages
       && t.stages[run] == Stage(session, current, current, 1, d.plans[PlanKey(session, current)], [])
       && t.plans == d.plans && t.sessions == d.sessions
  }

  lemma TurnStarts(d: Desk, session: Id, user: Id, key: Id, content: Id, run: Id, runtime: Id, input: Option<nat>)
    requires Contiguous(d.sessions, d.plans) && MessageKey(session, key) !in d.messages && run !in d.runs
    ensures var step := StartRun(d, session, user, key, content, run, runtime, input);
            && (step.out.Ok? <==>
                  && session in d.sessions && d.sessions[session].user == user && d.sessions[session].state.AllowsStage()
                  && d.sessions[session].runtime == runtime && forall r <- d.runs :: !(d.runs[r].runtime == runtime && Live(d.runs, r)))
            && (step.out.Ok? ==>
                  StartedFromCurrent(d, step.after, session, run) && step.out.value == (run, Some(step.after.stages[run])))
  {
  }

  /** A turn starts from the session's current plan, unedited; and starts whenever the session is open and idle. */
  lemma TurnStartsFromCurrent(ops: seq<Op>, session: Id, user: Id, key: Id, content: Id, run: Id, runtime: Id, input: Option<nat>)
    requires MessageKey(session, key) !in After(Empty, ops).messages && run !in After(Empty, ops).runs
    ensures var d := After(Empty, ops);
            var step := StartRun(d, session, user, key, content, run, runtime, input);
            && (step.out.Ok? <==>
                  && session in d.sessions && d.sessions[session].user == user && d.sessions[session].state.AllowsStage()
                  && d.sessions[session].runtime == runtime && forall r <- d.runs :: !(d.runs[r].runtime == runtime && Live(d.runs, r)))
            && (step.out.Ok? ==>
                  StartedFromCurrent(d, step.after, session, run) && step.out.value == (run, Some(step.after.stages[run])))
  {
    hide After, StartRun, Inv;
    EmptyInv();
    AfterSound(Empty, ops);
    NoGaps(After(Empty, ops));
    TurnStarts(After(Empty, ops), session, user, key, content, run, runtime, input);
  }

  lemma NoGaps(d: Desk)
    requires Inv(d)
    ensures Contiguous(d.sessions, d.plans)
  {
  }

  /** A turn is ended without result once, in its session; it leaves nothing: its stage is gone, no plan has changed, and
      the conversation is free for another. Ending it the same way again changes nothing. */
  lemma TerminatedLeavesNothing(ops: seq<Op>, run: Id, failed: bool, r: Id)
    requires run in After(Empty, ops).runs && After(Empty, ops).runs[run].owner in After(Empty, ops).sessions
    ensures var d, status := After(Empty, ops), if failed then Failed else Interrupted;
            var step := TerminateRun(d, run, failed);
            && (step.out.Ok? <==> d.sessions[d.runs[run].owner].runtime == d.runs[run].runtime && d.runs[run].status in {Running, status})
            && (step.out.Ok? ==>
                  && step.after == d.(runs := d.runs[run := d.runs[run].(status := status)], stages := d.stages - {run})
                  && (Live(d.runs, run) ==> !(Live(step.after.runs, r) && step.after.runs[r].runtime == d.runs[run].runtime)))
  {
    hide After;
    EmptyInv();
    AfterSound(Empty, ops);
  }

  /** Whoever else ends a run ends it while it runs, and without success; only its status changes. */
  lemma OthersEndRuns(d: Desk, run: Id, status: RunStatus)
    ensures var step := EndRun(d, run, status);
            && (step.out.Ok? <==> Live(d.runs, run) && status in {Interrupted, Failed, Cancelled})
            && (step.out.Ok? ==> step.after == d.(runs := d.runs[run := d.runs[run].(status := status)]))
  {
  }

  /** A plan written directly is accepted exactly from the owner who read the current revision, and is the next one. */
  lemma ReplacesIff(ops: seq<Op>, session: Id, user: Id, expected: nat, plan: Plan)
    ensures var d := After(Empty, ops);
            var step := ReplacePlan(d, session, user, expected, plan);
            && (step.out.Ok? <==> plan.valid && session in d.sessions && d.sessions[session].user == user && d.sessions[session].current == expected)
            && (step.out.Ok? ==>
                  && step.out.value == Revision(expected + 1, plan) && step.after.plans == d.plans[PlanKey(session, expected + 1) := plan]
                  && step.after.sessions == d.sessions[session := d.sessions[session].(current := expected + 1, state := IntentReview)])
  {
    hide After;
    EmptyInv();
    AfterSound(Empty, ops);
  }

  /** The plan is the next revision of the session, which is open to review. */
  ghost predicate Saved(t: Desk, id: Id, user: Id, revision: nat, plan: Plan) {
    && PlanKey(id, revision) in t.plans && t.plans[PlanKey(id, revision)] == plan
    && id in t.sessions && t.sessions[id].user == user && t.sessions[id].current == revision && t.sessions[id].state == IntentReview
  }

  lemma SaveOntoIff(d: Desk, m: Desk, id: Id, user: Id, expected: nat, skey: SaveKey, plan: Plan)
    requires Contiguous(m.sessions, m.plans)
    ensures var step := SaveOnto(d, m, id, user, expected, skey, plan);
            && (step.out.Ok? <==> Owns(m.sessions, id, user) && m.sessions[id].current == expected)
            && (step.out.Ok? ==> step.out.value == (id, Revision(expected + 1, plan)) && Saved(step.after, id, user, expected + 1, plan))
  {
  }

  lemma OpensIff(d: Desk, id: Id, user: Id, runtime: Id, seed: Plan)
    requires Contiguous(d.sessions, d.plans)
    ensures var step := CreateSession(d, id, user, runtime, seed);
            && (step.out.Ok? <==> id !in d.sessions)
            && (step.out.Ok? ==>
                  && Contiguous(step.after.sessions, step.after.plans) && Owns(step.after.sessions, id, user)
                  && step.after.sessions[id].current == 0 && step.after.plans == d.plans[PlanKey(id, 0) := seed])
  {
  }

  /** So is a saved one under a key not used before; without a session, it opens a new one. */
  lemma SavesIff(ops: seq<Op>, user: Id, onto: Option<Id>, newId: Id, runtime: Id, expected: nat, key: Id, plan: Plan)
    requires SaveKey(user, key) !in After(Empty, ops).saves
    ensures var d := After(Empty, ops);
            var step, id := SavePlan(d, user, onto, newId, runtime, expected, key, plan), if onto.Some? then onto.value else newId;
            && (step.out.Ok? <==>
                  && plan.valid
                  && if onto.Some? then id in d.sessions && d.sessions[id].user == user && d.sessions[id].current == expected else newId !in d.sessions && expected == 0)
            && (step.out.Ok? ==> step.out.value == (id, Revision(expected + 1, plan)) && Saved(step.after, id, user, expected + 1, plan))
  {
    hide After, SaveOnto, CreateSession, Contiguous, Saved;
    EmptyInv();
    AfterSound(Empty, ops);
    var d := After(Empty, ops);
    var skey := SaveKey(user, key);
    if onto.Some? {
      SaveOntoIff(d, d, onto.value, user, expected, skey, plan);
    } else {
      OpensIff(d, newId, user, runtime, NoPlan);
      var ready := CreateSession(d, newId, user, runtime, NoPlan);
      if ready.out.Ok? { SaveOntoIff(d, ready.after, newId, user, expected, skey, plan); }
    }
  }

  /** A failed attempt is tried again, under the next attempt number, until there were five or time is up; then the run is over. */
  lemma RetryDecides(d: Desk, run: Id, attempt: nat, inTime: bool)
    ensures var step := RetryRun(d, run, attempt, inTime);
            && (step.out.Ok? <==> Live(d.runs, run) && d.runs[run].attempt == attempt)
            && (step.out.Ok? ==>
                  && step.out.value == (attempt < 5 && inTime) && run in step.after.runs
                  && (Live(step.after.runs, run) <==> attempt < 5 && inTime)
                  && step.after.runs[run].attempt == (if attempt < 5 && inTime then attempt + 1 else attempt)
                  && (step.after.runs[run].status in {Running, Failed}))
  {
  }

  lemma FinalizedThen(d: Desk, run: Id, attempt: nat, content: Id)
    requires run in d.runs && d.runs[run].status == Running && run in d.stages && StageOk(d, run, d.stages[run])
    requires FinalizeRun(d, run, attempt, content).out.Ok?
    ensures var t := FinalizeRun(d, run, attempt, content).after;
            && run in t.runs && t.runs[run] == d.runs[run].(status := Succeeded) && t.runs[run].attempt == attempt
            && FinalOk(t, run) && t.completions[run].content == content
            && t.finals[run] == (d.stages[run].base, FinalizeRun(d, run, attempt, content).out.value)
  {
  }

  lemma FinalReplays(u: Desk, run: Id, attempt: nat, content: Id, base: nat, result: Revision, again: Id)
    requires run in u.runs && u.runs[run].status == Succeeded && u.runs[run].attempt == attempt
    requires FinalOk(u, run) && u.finals[run] == (base, result) && u.completions[run].content == content
    ensures FinalizeRun(u, run, attempt, again).after == u
    ensures again != content ==> FinalizeRun(u, run, attempt, again).out == Err(Conflict)
    ensures again == content ==> (FinalizeRun(u, run, attempt, again).out == Ok(result) <==> u.runs[run].input == Some(base))
  {
  }

  /** Replaying a finalization returns the same revision number and plan, however many revisions came later,
      exactly when the run was started with the revision its stage is based on as its input. */
  lemma FinalizationIsOnce(d: Desk, more: seq<Op>, run: Id, attempt: nat, content: Id, again: Id)
    requires Inv(d) && run in d.runs && d.runs[run].status == Running && FinalizeRun(d, run, attempt, content).out.Ok?
    ensures var first := FinalizeRun(d, run, attempt, content);
            var u := After(first.after, more);
            && run in d.stages && FinalizeRun(u, run, attempt, again).after == u
            && (again != content ==> FinalizeRun(u, run, attempt, again).out == Err(Conflict))
            && (FinalizeRun(u, run, attempt, content).out == first.out <==> d.runs[run].input == Some(d.stages[run].base))
  {
    hide After, Kept, SessionsStay, Contiguous, Operations, OneRunning;
    var first := FinalizeRun(d, run, attempt, content);
    assert StageOk(d, run, d.stages[run]);
    FinalizedThen(d, run, attempt, content);
    FinalizeRunSound(d, run, attempt, content);
    hide FinalizeRun, StageOk, Stages, Finals;
    AfterSound(first.after, more);
    var u := After(first.after, more);
    FinalLater(first.after, u, run);
    FinalReplays(u, run, attempt, content, d.stages[run].base, first.out.value, again);
    FinalReplays(u, run, attempt, content, d.stages[run].base, first.out.value, content);
  }

  // ---- A replay that answers another revision ----

  const Misstarted: seq<Op> :=
    [DoCreateSession(1, 1, 5, Plan(7, false)), DoReplacePlan(1, 1, 0, Plan(8, true)), DoStartRun(1, 1, 1, 2, 3, 5, Some(0))]

  /** Session 1 stands at revision 1, with nothing started. */
  ghost predicate Planned(d: Desk) {
    && d.sessions == map[1 := Session(1, 5, IntentReview, 1)]
    && d.plans == map[PlanKey(1, 0) := Plan(7, false), PlanKey(1, 1) := Plan(8, true)]
    && d.runs == map[] && d.messages == map[] && d.completions == map[]
  }

  lemma Opens()
    ensures var d := Next(Empty, Misstarted[0]);
            && d.sessions == map[1 := Session(1, 5, DraftConversation, 0)] && d.plans == map[PlanKey(1, 0) := Plan(7, false)]
            && d.runs == map[] && d.messages == map[] && d.completions == map[]
  {
  }

  lemma Replaces(d: Desk)
    requires d.sessions == map[1 := Session(1, 5, DraftConversation, 0)] && d.plans == map[PlanKey(1, 0) := Plan(7, false)]
    requires d.runs == map[] && d.messages == map[] && d.completions == map[]
    ensures Planned(Next(d, Misstarted[1]))
  {
  }

  lemma StartsOver(d: Desk)
    requires Planned(d)
    ensures var e := StartRun(d, 1, 1, 1, 2, 3, 5, Some(0)).after;
            && e.sessions == d.sessions && e.plans == d.plans && e.completions == map[] && 3 in e.runs && 3 in e.stages
            && e.runs[3] == Run(5, 1, Running, 1, Some(0)) && e.stages[3] == Stage(1, 1, 1, 1, Plan(8, true), [])
  {
  }

  lemma EndsInOne(e: Desk)
    requires e.sessions == map[1 := Session(1, 5, IntentReview, 1)] && e.completions == map[] && 3 in e.runs && 3 in e.stages
    requires e.plans == map[PlanKey(1, 0) := Plan(7, false), PlanKey(1, 1) := Plan(8, true)]
    requires e.runs[3] == Run(5, 1, Running, 1, Some(0)) && e.stages[3] == Stage(1, 1, 1, 1, Plan(8, true), [])
    ensures FinalizeRun(e, 3, 1, 4).out == Ok(Revision(1, Plan(8, true)))
    ensures FinalizeRun(FinalizeRun(e, 3, 1, 4).after, 3, 1, 4).out == Ok(Revision(0, Plan(7, false)))
  {
  }

  /** From the empty desk: started on revision 1 with 0 as its input, the run ends in revision 1 and is replayed as revision 0. */
  lemma ReplayAnswersAnother()
    ensures var first := FinalizeRun(After(Empty, Misstarted), 3, 1, 4);
            first.out == Ok(Revision(1, Plan(8, true))) && FinalizeRun(first.after, 3, 1, 4).out == Ok(Revision(0, Plan(7, false)))
  {
    hide Next, FinalizeRun, StartRun, Planned;
    var d0, d1, d2 := After(Empty, Misstarted[..0]), After(Empty, Misstarted[..1]), After(Empty, Misstarted[..2]);
    assert Misstarted[..1][..0] == Misstarted[..0] && Misstarted[..2][..1] == Misstarted[..1] && Misstarted[..3] == Misstarted;
    Opens();
    Replaces(d1);
    StartsOver(d2);
    PlannedIs(d2);
    StartIsNext(d2);
    EndsInOne(After(Empty, Misstarted));
  }

  lemma PlannedIs(d: Desk)
    requires Planned(d)
    ensures d.sessions == map[1 := Session(1, 5, IntentReview, 1)]
    ensures d.plans == map[PlanKey(1, 0) := Plan(7, false), PlanKey(1, 1) := Plan(8, true)]
  {
  }

  lemma StartIsNext(d: Desk)
    ensures Next(d, Misstarted[2]) == StartRun(d, 1, 1, 1, 2, 3, 5, Some(0)).after
  {
    hide StartRun;
  }

  lemma FinalLater(t: Desk, u: Desk, run: Id)
    requires Later(t, u) && FinalOk(t, run) && t.runs[run].status == Succeeded
    ensures FinalOk(u, run) && u.runs[run] == t.runs[run] && u.finals[run] == t.finals[run] && u.completions[run] == t.completions[run]
  {
  }

  /** A repeated save returns its first revision, or is refused when it is another. */
  lemma SaveIsOnce(d: Desk, more: seq<Op>, user: Id, session: Option<Id>, newId: Id, runtime: Id, expected: nat, key: Id, plan: Plan,
                   session': Option<Id>, newId': Id, runtime': Id, expected': nat, plan': Plan)
    requires Inv(d) && SavePlan(d, user, session, newId, runtime, expected, key, plan).out.Ok? && SaveKey(user, key) !in d.saves
    requires plan'.valid && (session'.None? ==> expected' == 0)
    ensures var first := SavePlan(d, user, session, newId, runtime, expected, key, plan);
            var u := After(first.after, more);
            SavePlan(u, user, session', newId', runtime', expected', key, plan')
              == (if expected' == expected && plan' == plan && (session'.None? || session' == Some(first.out.value.0))
                  then Step(u, first.out) else Refuse(u, Conflict))
  {
    hide After, Inv;
    var first := SavePlan(d, user, session, newId, runtime, expected, key, plan);
    SaveRecorded(d, user, session, newId, runtime, expected, key, plan);
    SavePlanSound(d, user, session, newId, runtime, expected, key, plan);
    hide SavePlan;
    AfterSound(first.after, more);
    SaveReplays(After(first.after, more), user, key, SaveReceipt(first.out.value.0, expected, expected + 1, plan),
                session', newId', runtime', expected', plan');
  }

  lemma SaveRecorded(d: Desk, user: Id, session: Option<Id>, newId: Id, runtime: Id, expected: nat, key: Id, plan: Plan)
    requires SavePlan(d, user, session, newId, runtime, expected, key, plan).out.Ok? && SaveKey(user, key) !in d.saves
    ensures var step := SavePlan(d, user, session, newId, runtime, expected, key, plan);
            var id := step.out.value.0;
            && step.out.value.1 == Revision(expected + 1, plan)
            && SaveKey(user, key) in step.after.saves && step.after.saves[SaveKey(user, key)] == SaveReceipt(id, expected, expected + 1, plan)
            && Owns(step.after.sessions, id, user) && PlanKey(id, expected + 1) in step.after.plans
            && step.after.plans[PlanKey(id, expected + 1)] == plan
  {
  }

  lemma SaveReplays(u: Desk, user: Id, key: Id, receipt: SaveReceipt, session: Option<Id>, newId: Id, runtime: Id, expected: nat, plan: Plan)
    requires SaveKey(user, key) in u.saves && u.saves[SaveKey(user, key)] == receipt && Owns(u.sessions, receipt.session, user)
    requires PlanKey(receipt.session, receipt.revision) in u.plans && u.plans[PlanKey(receipt.session, receipt.revision)] == receipt.plan
    requires plan.valid && (session.None? ==> expected == 0)
    ensures SavePlan(u, user, session, newId, runtime, expected, key, plan)
            == (if expected == receipt.expected && plan == receipt.plan && (session.None? || session == Some(receipt.session))
                then Step(u, Ok((receipt.session, Revision(receipt.revision, receipt.plan)))) else Refuse(u, Conflict))
  {
  }
}
