/** Authoring conversations: an append-only history of plans, private stages of one run, and finalization. */
module Authoring {
  import opened Base

  datatype SessionState = DraftConversation | IntentReview | Finished
  {
    predicate AllowsStage() { DraftConversation? || IntentReview? }
  }

  datatype Session = Session(user: Id, runtime: Id, state: SessionState, current: nat)

  datatype Plan = Plan(text: Id, valid: bool)

  datatype PlanKey = PlanKey(session: Id, revision: nat)

  /** One edit of the staged plan; it announces the revision it will end up in. */
  datatype Change = Change(summary: Id, revision: nat)

  datatype Stage = Stage(session: Id, base: nat, revision: nat, attempt: nat, plan: Plan, changes: seq<Change>)

  datatype OperationKey = OperationKey(run: Id, operation: Id)

  /** What an operation left the stage at. */
  datatype Operation = Operation(request: Id, revision: nat, plan: Plan, changes: seq<Change>)

  datatype RunStatus = Running | Succeeded | Interrupted | Failed | Cancelled

  /** `input` is the plan revision the caller says the run starts from, when it reads as one. */
  datatype Run = Run(runtime: Id, owner: Id, status: RunStatus, attempt: nat, input: Option<nat>)

  const MaxAttempts: nat := 5

  /** The assistant's closing message keeps the changes. */
  datatype Completion = Completion(content: Id, changes: seq<Change>)

  datatype MessageKey = MessageKey(session: Id, key: Id)

  datatype MessageReceipt = MessageReceipt(content: Id, run: Id)

  datatype SaveKey = SaveKey(user: Id, key: Id)

  datatype SaveReceipt = SaveReceipt(session: Id, expected: nat, revision: nat, plan: Plan)

  datatype Revision = Revision(number: nat, plan: Plan)

  /** The tables, and for each finished run, as history, the base and the revision it ended with. */
  datatype Desk = Desk(
    sessions: map<Id, Session>, plans: map<PlanKey, Plan>, stages: map<Id, Stage>, operations: map<OperationKey, Operation>,
    runs: map<Id, Run>, completions: map<Id, Completion>, messages: map<MessageKey, MessageReceipt>,
    saves: map<SaveKey, SaveReceipt>, finals: map<Id, (nat, Revision)>)

  const Empty := Desk(map[], map[], map[], map[], map[], map[], map[], map[], map[])

  datatype Step<+T> = Step(after: Desk, out: Outcome<T>)

  function Refuse<T>(d: Desk, error: Error): Step<T> { Step(d, Err(error)) }

  predicate Owns(sessions: map<Id, Session>, session: Id, user: Id) { session in sessions && sessions[session].user == user }

  predicate Live(runs: map<Id, Run>, run: Id) { run in runs && runs[run].status == Running }

  /** Insert the next plan revision and move the session to it. */
  function Advance(d: Desk, session: Id, plan: Plan): Desk
    requires session in d.sessions
  {
    var next := d.sessions[session].current + 1;
    d.(plans := d.plans[PlanKey(session, next) := plan],
       sessions := d.sessions[session := d.sessions[session].(current := next, state := IntentReview)])
  }

  function CreateSession(d: Desk, id: Id, user: Id, runtime: Id, seed: Plan): Step<()> {
    if id in d.sessions || PlanKey(id, 0) in d.plans then Refuse(d, Constraint)
    else Step(d.(sessions := d.sessions[id := Session(user, runtime, DraftConversation, 0)],
                 plans := d.plans[PlanKey(id, 0) := seed]), Ok(()))
  }

  /** Another writer publishes or reopens the session; its plans are not touched. */
  function MarkSession(d: Desk, id: Id, state: SessionState): Step<()> {
    if id !in d.sessions then Refuse(d, NotFound)
    else Step(d.(sessions := d.sessions[id := d.sessions[id].(state := state)]), Ok(()))
  }

  /** None: the receipt names a run that was started before. */
  function StartRun(d: Desk, session: Id, user: Id, key: Id, content: Id, run: Id, runtime: Id, input: Option<nat>): Step<(Id, Option<Stage>)> {
    var rkey := MessageKey(session, key);
    if !Owns(d.sessions, session, user) then Refuse(d, NotFound)
    else if rkey in d.messages then
      if d.messages[rkey].content != content then Refuse(d, Conflict) else Step(d, Ok((d.messages[rkey].run, None)))
    else
      var s := d.sessions[session];
      if !s.state.AllowsStage() || runtime != s.runtime then Refuse(d, InvalidState)
      else if exists r <- d.runs :: d.runs[r].runtime == runtime && d.runs[r].status == Running then Refuse(d, RunActive)
      else if PlanKey(session, s.current) !in d.plans then Refuse(d, NotFound)
      else if run in d.runs then Refuse(d, Constraint)
      else
        var stage := Stage(session, s.current, s.current, 1, d.plans[PlanKey(session, s.current)], []);
        Step(d.(runs := d.runs[run := Run(runtime, session, Running, 1, input)],
                stages := d.stages[run := stage],
                messages := d.messages[rkey := MessageReceipt(content, run)]), Ok((run, Some(stage))))
  }

  function Replayed(stage: Stage, op: Operation): Stage {
    stage.(revision := op.revision, plan := op.plan, changes := op.changes)
  }

  function UpdateStage(d: Desk, run: Id, attempt: nat, expected: nat, operation: Id, request: Id, plan: Plan, summary: Id): Step<Stage> {
    var okey := OperationKey(run, operation);
    if run !in d.stages then Refuse(d, NotFound)
    else
      var stage := d.stages[run];
      if stage.attempt != attempt then Refuse(d, RunActive)
      else if !Live(d.runs, run) || d.runs[run].owner != stage.session || d.runs[run].attempt != attempt then Refuse(d, RunActive)
      else if okey in d.operations then
        if d.operations[okey].request != request then Refuse(d, Conflict) else Step(d, Ok(Replayed(stage, d.operations[okey])))
      else if stage.revision != expected then Refuse(d, Conflict)
      else if stage.session !in d.sessions then Refuse(d, NotFound)
      else
        var next := stage.(revision := stage.revision + 1, plan := plan, changes := stage.changes + [Change(summary, stage.base + 1)]);
        Step(d.(stages := d.stages[run := next],
                operations := d.operations[okey := Operation(request, next.revision, plan, next.changes)]), Ok(next))
  }

  /** A finished run is answered from its closing message and the revision the run was started from. */
  function ReplayFinal(d: Desk, run: Id, content: Id): Outcome<Revision>
    requires run in d.runs
  {
    var r := d.runs[run];
    if run !in d.completions then Err(InvalidState)
    else if d.completions[run].content != content then Err(Conflict)
    else if r.input.None? then Err(Conflict)
    else
      var number := if d.completions[run].changes != [] then r.input.value + 1 else r.input.value;
      if PlanKey(r.owner, number) !in d.plans then Err(NotFound) else Ok(Revision(number, d.plans[PlanKey(r.owner, number)]))
  }

  function WithoutStage(stages: map<Id, Stage>, run: Id): map<Id, Stage> { stages - {run} }

  /** Without changes there is no new revision. */
  function FinalPlans(plans: map<PlanKey, Plan>, stage: Stage): map<PlanKey, Plan> {
    if stage.changes == [] then plans else plans[PlanKey(stage.session, stage.base + 1) := stage.plan]
  }

  function FinalSessions(sessions: map<Id, Session>, stage: Stage): map<Id, Session>
    requires stage.session in sessions
  {
    if stage.changes == [] then sessions
    else sessions[stage.session := sessions[stage.session].(current := stage.base + 1, state := IntentReview)]
  }

  function FinalizeRun(d: Desk, run: Id, attempt: nat, content: Id): Step<Revision> {
    if run !in d.runs then Refuse(d, NotFound)
    else
      var r := d.runs[run];
      if r.attempt != attempt then Refuse(d, RunActive)
      else if r.status == Succeeded then Step(d, ReplayFinal(d, run, content))
      else if r.status != Running then Refuse(d, RunActive)
      else if run !in d.stages then Refuse(d, NotFound)
      else
        var stage := d.stages[run];
        if stage.attempt != attempt || stage.session != r.owner then Refuse(d, RunActive)
        else if stage.session !in d.sessions then Refuse(d, NotFound)
        else
          var s := d.sessions[stage.session];
          if s.runtime != r.runtime || s.current != stage.base || !s.state.AllowsStage() then Refuse(d, InvalidState)
          else if stage.changes != [] && !stage.plan.valid then Refuse(d, InvalidState)
          else if stage.changes != [] && PlanKey(stage.session, stage.base + 1) in d.plans then Refuse(d, Constraint)
          else if run in d.completions then Refuse(d, Constraint)
          else
            var result := Revision(if stage.changes != [] then stage.base + 1 else s.current, stage.plan);
            Step(d.(sessions := FinalSessions(d.sessions, stage), plans := FinalPlans(d.plans, stage),
                    completions := d.completions[run := Completion(content, stage.changes)],
                    runs := d.runs[run := r.(status := Succeeded)],
                    stages := WithoutStage(d.stages, run),
                    finals := d.finals[run := (stage.base, result)]), Ok(result))
  }

  /** The turn ends without result, interrupted or failed; its private stage is discarded. */
  function TerminateRun(d: Desk, run: Id, failed: bool): Step<()> {
    var status := if failed then Failed else Interrupted;
    if run !in d.runs then Refuse(d, NotFound)
    else if d.runs[run].owner !in d.sessions then Refuse(d, NotFound)
    else if d.sessions[d.runs[run].owner].runtime != d.runs[run].runtime then Refuse(d, InvalidState)
    else if d.runs[run].status != Running && d.runs[run].status != status then Refuse(d, RunActive)
    else Step(d.(runs := d.runs[run := d.runs[run].(status := status)], stages := WithoutStage(d.stages, run)), Ok(()))
  }

  /** Every other writer of agent runs ends a run only while it is running. */
  function EndRun(d: Desk, run: Id, status: RunStatus): Step<()> {
    if !Live(d.runs, run) || status == Running || status == Succeeded then Refuse(d, RunActive)
    else Step(d.(runs := d.runs[run := d.runs[run].(status := status)]), Ok(()))
  }

  /** Another attempt of the same run, or its end. */
  function RetryRun(d: Desk, run: Id, attempt: nat, inTime: bool): Step<bool> {
    if !Live(d.runs, run) || d.runs[run].attempt != attempt then Refuse(d, RunActive)
    else
      var again := attempt < MaxAttempts && inTime;
      var next := if again then d.runs[run].(attempt := attempt + 1) else d.runs[run].(status := Failed);
      Step(d.(runs := d.runs[run := next]), Ok(again))
  }

  function ReplacePlan(d: Desk, session: Id, user: Id, expected: nat, plan: Plan): Step<Revision> {
    if !plan.valid then Refuse(d, Invalid)
    else if !Owns(d.sessions, session, user) then Refuse(d, NotFound)
    else if d.sessions[session].current != expected then Refuse(d, Conflict)
    else if PlanKey(session, expected + 1) in d.plans then Refuse(d, Constraint)
    else Step(Advance(d, session, plan), Ok(Revision(expected + 1, plan)))
  }

  /** The plan becomes the next revision of a session of m, which is d or d with that session opened. */
  function SaveOnto(d: Desk, m: Desk, id: Id, user: Id, expected: nat, skey: SaveKey, plan: Plan): Step<(Id, Revision)> {
    if !Owns(m.sessions, id, user) then Refuse(d, NotFound)
    else if m.sessions[id].current != expected then Refuse(d, Conflict)
    else if PlanKey(id, expected + 1) in m.plans then Refuse(d, Constraint)
    else
      Step(Advance(m, id, plan).(saves := m.saves[skey := SaveReceipt(id, expected, expected + 1, plan)]),
           Ok((id, Revision(expected + 1, plan))))
  }

  function ReplaySave(d: Desk, user: Id, session: Option<Id>, expected: nat, receipt: SaveReceipt, plan: Plan): Outcome<(Id, Revision)> {
    var pkey := PlanKey(receipt.session, receipt.revision);
    if receipt.expected != expected || receipt.plan != plan || (session.Some? && session.value != receipt.session) then Err(Conflict)
    else if !Owns(d.sessions, receipt.session, user) || pkey !in d.plans then Err(NotFound)
    else Ok((receipt.session, Revision(receipt.revision, d.plans[pkey])))
  }

  const NoPlan := Plan(0, false)

  /** A complete plan from an external client, for an existing session or a new one. */
  function SavePlan(d: Desk, user: Id, session: Option<Id>, newId: Id, runtime: Id, expected: nat, key: Id, plan: Plan): Step<(Id, Revision)> {
    var skey := SaveKey(user, key);
    if session.None? && expected != 0 then Refuse(d, Conflict)
    else if !plan.valid then Refuse(d, Invalid)
    else if skey in d.saves then Step(d, ReplaySave(d, user, session, expected, d.saves[skey], plan))
    else match session
      case Some(id) => SaveOnto(d, d, id, user, expected, skey, plan)
      case None =>
        var ready := CreateSession(d, newId, user, runtime, NoPlan);
        if ready.out.Err? then Refuse(d, ready.out.error) else SaveOnto(d, ready.after, newId, user, expected, skey, plan)
  }

  // ---- Runs ----

  datatype Op =
    | DoCreateSession(id: Id, user: Id, runtime: Id, seed: Plan)
    | DoMarkSession(id: Id, state: SessionState)
    | DoStartRun(session: Id, user: Id, key: Id, content: Id, run: Id, runtime: Id, input: Option<nat>)
    | DoUpdateStage(run: Id, attempt: nat, expected: nat, operation: Id, request: Id, plan: Plan, summary: Id)
    | DoFinalizeRun(run: Id, attempt: nat, content: Id)
    | DoTerminateRun(run: Id, failed: bool)
    | DoEndRun(run: Id, status: RunStatus)
    | DoRetryRun(run: Id, attempt: nat, inTime: bool)
    | DoReplacePlan(session: Id, user: Id, expected: nat, plan: Plan)
    | DoSavePlan(user: Id, onto: Option<Id>, newId: Id, runtime: Id, expected: nat, key: Id, plan: Plan)

  function Next(d: Desk, op: Op): Desk {
    match op
    case DoCreateSession(id, user, runtime, seed) => CreateSession(d, id, user, runtime, seed).after
    case DoMarkSession(id, state) => MarkSession(d, id, state).after
    case DoStartRun(session, user, key, content, run, runtime, input) =>
      StartRun(d, session, user, key, content, run, runtime, input).after
    case DoUpdateStage(run, attempt, expected, operation, request, plan, summary) =>
      UpdateStage(d, run, attempt, expected, operation, request, plan, summary).after
    case DoFinalizeRun(run, attempt, content) => FinalizeRun(d, run, attempt, content).after
    case DoTerminateRun(run, failed) => TerminateRun(d, run, failed).after
    case DoEndRun(run, status) => EndRun(d, run, status).after
    case DoRetryRun(run, attempt, inTime) => RetryRun(d, run, attempt, inTime).after
    case DoReplacePlan(session, user, expected, plan) => ReplacePlan(d, session, user, expected, plan).after
    case DoSavePlan(user, onto, newId, runtime, expected, key, plan) => SavePlan(d, user, onto, newId, runtime, expected, key, plan).after
  }

  function After(d: Desk, ops: seq<Op>): Desk {
    if ops == [] then d else Next(After(d, ops[..|ops| - 1]), ops[|ops| - 1])
  }

  // ---- Invariants ----

  /** A session's history has exactly the revisions up to its current one. */
  ghost predicate Contiguous(sessions: map<Id, Session>, plans: map<PlanKey, Plan>) {
    forall k: PlanKey :: k in plans <==> k.session in sessions && k.revision <= sessions[k.session].current
  }

  /** A stage is as far from its base as it has changes, and without changes holds the base's plan. */
  ghost predicate StageOk(d: Desk, run: Id, stage: Stage) {
    && run in d.runs && d.runs[run].owner == stage.session
    && stage.session in d.sessions && stage.base <= d.sessions[stage.session].current
    && d.runs[run].status != Succeeded
    && stage.revision == stage.base + |stage.changes|
    && (stage.changes == [] ==> PlanKey(stage.session, stage.base) in d.plans && stage.plan == d.plans[PlanKey(stage.session, stage.base)])
  }

  ghost predicate Stages(d: Desk) { forall r <- d.stages :: StageOk(d, r, d.stages[r]) }

  /** What an operation recorded is a past of its run's stage. */
  ghost predicate Operations(d: Desk) {
    forall k <- d.operations :: k.run in d.runs &&
      (k.run in d.stages ==>
         var stage := d.stages[k.run];
         var op := d.operations[k];
         op.changes != [] && op.changes <= stage.changes && op.revision == stage.base + |op.changes|)
  }

  /** A succeeded run has its closing message, and its revision is in the history. */
  ghost predicate FinalOk(d: Desk, run: Id) {
    && run in d.runs && run in d.completions && run in d.finals
    && var (base, result) := d.finals[run];
       && result.number == (if d.completions[run].changes != [] then base + 1 else base)
       && PlanKey(d.runs[run].owner, result.number) in d.plans && d.plans[PlanKey(d.runs[run].owner, result.number)] == result.plan
  }

  ghost predicate Finals(d: Desk) {
    && (forall r <- d.runs :: d.runs[r].status == Succeeded ==> FinalOk(d, r))
    && (forall r <- d.completions :: r in d.runs && d.runs[r].status == Succeeded)
    && (forall r <- d.finals :: r in d.runs && d.runs[r].status == Succeeded)
  }

  /** UNIQUE(session) over running runs. */
  ghost predicate OneRunning(runs: map<Id, Run>) {
    forall a, b | a in runs && b in runs && runs[a].status == Running && runs[b].status == Running && runs[a].runtime == runs[b].runtime :: a == b
  }

  ghost predicate Inv(d: Desk) {
    Contiguous(d.sessions, d.plans) && Stages(d) && Operations(d) && Finals(d) && OneRunning(d.runs)
  }

  // ---- What one step may do to the past ----

  ghost predicate Kept<K(!new), V(!new)>(a: map<K, V>, b: map<K, V>) { forall k <- a :: k in b && b[k] == a[k] }

  ghost predicate RunsStay(a: map<Id, Run>, b: map<Id, Run>) {
    forall r <- a :: r in b && b[r].owner == a[r].owner && b[r].runtime == a[r].runtime && b[r].input == a[r].input
                     && (a[r].status != Running ==> b[r] == a[r])
  }

  ghost predicate SessionsStay(a: map<Id, Session>, b: map<Id, Session>) {
    forall s <- a :: s in b && b[s].user == a[s].user && b[s].runtime == a[s].runtime && a[s].current <= b[s].current
  }

  /** Everything recorded stays recorded: above all, no plan revision is ever replaced. */
  ghost predicate Later(d: Desk, t: Desk) {
    && SessionsStay(d.sessions, t.sessions) && RunsStay(d.runs, t.runs)
    && Kept(d.plans, t.plans) && Kept(d.operations, t.operations) && Kept(d.completions, t.completions)
    && Kept(d.messages, t.messages) && Kept(d.saves, t.saves) && Kept(d.finals, t.finals)
  }
}
