/** Every user action takes effect at most once per session, action and key: in any later state the same
    request returns what it returned first and changes nothing, and another request is refused. */
module GenerationReceipts {
  import opened Base
  import Scenarios
  import opened Generation
  import opened GenerationInvariants
  import GenerationPublication
  import GenerationSteps
  import opened GenerationRuns
  import opened GenerationTheorems

  /** A request of this user was granted with this answer, and the receipt says so. */
  ghost predicate Recorded(s: State, k: ReceiptKey, user: Id, request: Request, answer: Id) {
    && Owns(s.sessions, k.session, user)
    && k in s.receipts && s.receipts[k].request == request && ReceiptShape(s.workflows, s.candidates, k, s.receipts[k])
    && answer == (if k.action == SubmitCandidate then s.receipts[k].candidate.value else s.receipts[k].workflow)
  }

  lemma RecordedLater(s: State, t: State, k: ReceiptKey, user: Id, request: Request, answer: Id)
    requires Recorded(s, k, user, request, answer) && Later(s, t) && ReceiptsMatch(t.receipts, t.workflows, t.candidates)
    ensures Recorded(t, k, user, request, answer)
  {
    hide ReceiptShape, CandidatesStay, RunsStay;
  }

  lemma RecordedAfter(s: State, more: seq<Op>, k: ReceiptKey, user: Id, request: Request, answer: Id)
    requires Inv(s) && Recorded(s, k, user, request, answer)
    ensures Recorded(After(s, more), k, user, request, answer)
  {
    hide Later, Recorded, After;
    AfterSound(s, more);
    RecordedLater(s, After(s, more), k, user, request, answer);
  }

  lemma SoundInv(s: State, t: State)
    requires Sound(s, t)
    ensures Inv(t)
  {
  }

  lemma StartRecorded(s: State, session: Id, user: Id, key: Id, plan: nat, newId: Id, now: Time)
    requires ReceiptsMatch(s.receipts, s.workflows, s.candidates) && CreateWorkflow(s, session, user, plan, key, newId, now).out.Ok?
    ensures var step := CreateWorkflow(s, session, user, plan, key, newId, now);
            ReceiptsMatch(step.after.receipts, step.after.workflows, step.after.candidates) ==>
              Recorded(step.after, ReceiptKey(session, ConfirmGeneration, key), user, StartRequest(plan), step.out.value)
  {
  }

  lemma StartReplays(s: State, session: Id, user: Id, key: Id, request: Request, answer: Id, plan: nat, newId: Id, now: Time)
    requires Recorded(s, ReceiptKey(session, ConfirmGeneration, key), user, request, answer)
    ensures CreateWorkflow(s, session, user, plan, key, newId, now)
            == (if StartRequest(plan) == request then Step(s, Ok(answer)) else Refuse(s, Conflict))
  {
  }

  /** Confirming generation is once and for all. */
  lemma StartIsOnce(ops: seq<Op>, more: seq<Op>, session: Id, user: Id, key: Id, plan: nat, newId: Id, now: Time,
                  plan': nat, newId': Id, now': Time)
    requires CreateWorkflow(Reached(ops), session, user, plan, key, newId, now).out.Ok?
    ensures var first := CreateWorkflow(Reached(ops), session, user, plan, key, newId, now);
            var s := After(first.after, more);
            CreateWorkflow(s, session, user, plan', key, newId', now')
              == (if StartRequest(plan') == StartRequest(plan) then Step(s, first.out) else Refuse(s, Conflict))
  {
    hide Reached, After, CreateWorkflow, Recorded, Sound, ReceiptsMatch;
    var s := Reached(ops);
    var first := CreateWorkflow(s, session, user, plan, key, newId, now);
    RunSound(ops);
    GenerationPublication.CreateWorkflowKeeps(s, session, user, plan, key, newId, now);
    assert Inv(first.after) by { SoundInv(s, first.after); }
    StartRecorded(s, session, user, key, plan, newId, now);
    RecordedAfter(first.after, more, ReceiptKey(session, ConfirmGeneration, key), user, StartRequest(plan), first.out.value);
    StartReplays(After(first.after, more), session, user, key, StartRequest(plan), first.out.value, plan', newId', now');
  }

  /** The workflow a confirmation answers is of the plan it confirms. */
  lemma StartedForPlan(s: State, session: Id, user: Id, key: Id, plan: nat, newId: Id, now: Time)
    requires Inv(s) && CreateWorkflow(s, session, user, plan, key, newId, now).out.Ok?
    ensures var step := CreateWorkflow(s, session, user, plan, key, newId, now);
            Inv(step.after) && Later(s, step.after) && WorkflowsMove(s.workflows, step.after.workflows)
            && step.out.value in step.after.workflows && ForPlan(step.after.workflows[step.out.value], session, plan)
  {
    hide CreateWorkflow, Rows, EndedVerdicts, ClaimsIssued, Scenarios.Consistent, Authored, OneCurrent, OnePerPlan, WorkflowsMove, Later, LeasesFollow;
    GenerationPublication.CreateWorkflowKeeps(s, session, user, plan, key, newId, now);
    StartRecorded(s, session, user, key, plan, newId, now);
  }

  lemma SamePlanSameWorkflow(s: State, a: Id, b: Id, session: Id, plan: nat)
    requires OnePerPlan(s.workflows) && a in s.workflows && b in s.workflows
    requires ForPlan(s.workflows[a], session, plan) && ForPlan(s.workflows[b], session, plan)
    ensures a == b
  {
  }

  /** The session's owner confirms, under a key not yet used for something else. */
  predicate MayConfirm(s: State, session: Id, user: Id, key: Id, plan: nat) {
    && Owns(s.sessions, session, user)
    && (ReceiptKey(session, ConfirmGeneration, key) in s.receipts ==>
          s.receipts[ReceiptKey(session, ConfirmGeneration, key)].request == StartRequest(plan))
  }

  /** Once the plan has its workflow, nothing else can refuse a confirmation. */
  lemma StartedAnswers(s: State, id: Id, session: Id, user: Id, key: Id, plan: nat, newId: Id, now: Time)
    requires ReceiptsMatch(s.receipts, s.workflows, s.candidates) && id in s.workflows && ForPlan(s.workflows[id], session, plan)
    ensures CreateWorkflow(s, session, user, plan, key, newId, now).out.Ok? <==> MayConfirm(s, session, user, key, plan)
  {
  }

  /** A plan revision has one workflow: its owner's confirmations of it, under any key that is fresh or was used for it,
      at any later time, are all granted and all answer the same one; every other confirmation is refused. */
  lemma PlanHasOneWorkflow(ops: seq<Op>, more: seq<Op>, session: Id, plan: nat, user: Id, key: Id, newId: Id, now: Time,
                           user': Id, key': Id, newId': Id, now': Time)
    requires CreateWorkflow(Reached(ops), session, user, plan, key, newId, now).out.Ok?
    ensures var first := CreateWorkflow(Reached(ops), session, user, plan, key, newId, now);
            var s := After(first.after, more);
            var again := CreateWorkflow(s, session, user', plan, key', newId', now');
            (again.out == first.out <==> MayConfirm(s, session, user', key', plan)) && (again.out.Ok? ==> again.out == first.out)
  {
    hide Reached, After, CreateWorkflow, Rows, EndedVerdicts, ClaimsIssued, ReceiptsMatch, Scenarios.Consistent, Authored, OneCurrent, Later, OnePerPlan,
      MayConfirm;
    RunSound(ops);
    var first := CreateWorkflow(Reached(ops), session, user, plan, key, newId, now);
    StartedForPlan(Reached(ops), session, user, key, plan, newId, now);
    AfterSound(first.after, more);
    var s := After(first.after, more);
    var again := CreateWorkflow(s, session, user', plan, key', newId', now');
    StartedAnswers(s, first.out.value, session, user', key', plan, newId', now');
    if again.out.Ok? {
      StartedForPlan(s, session, user', key', plan, newId', now');
      SamePlanSameWorkflow(again.after, first.out.value, again.out.value, session, plan);
    }
  }

  lemma SubmitRecorded(s: State, session: Id, user: Id, key: Id, workflow: Id, turn: Id, candidate: Id, judgeRun: Option<Id>, content: Id, now: Time)
    requires ReceiptsMatch(s.receipts, s.workflows, s.candidates) && Submit(s, session, user, key, workflow, turn, candidate, judgeRun, content, now).out.Ok?
    ensures var step := Submit(s, session, user, key, workflow, turn, candidate, judgeRun, content, now);
            ReceiptsMatch(step.after.receipts, step.after.workflows, step.after.candidates) ==>
              Recorded(step.after, ReceiptKey(session, SubmitCandidate, key), user, SubmitRequest(workflow, turn), step.out.value)
  {
  }

  lemma SubmitReplays(s: State, session: Id, user: Id, key: Id, request: Request, answer: Id, workflow: Id, turn: Id, candidate: Id, judgeRun: Option<Id>, content: Id, now: Time)
    requires Recorded(s, ReceiptKey(session, SubmitCandidate, key), user, request, answer)
    ensures Submit(s, session, user, key, workflow, turn, candidate, judgeRun, content, now)
            == (if SubmitRequest(workflow, turn) == request then Step(s, Ok(answer)) else Refuse(s, Conflict))
  {
  }

  /** Submitting a candidate is once and for all. */
  lemma SubmitIsOnce(ops: seq<Op>, more: seq<Op>, session: Id, user: Id, key: Id, workflow: Id, turn: Id, candidate: Id, judgeRun: Option<Id>, content: Id, now: Time,
                  workflow': Id, turn': Id, candidate': Id, judgeRun': Option<Id>, content': Id, now': Time)
    requires Submit(Reached(ops), session, user, key, workflow, turn, candidate, judgeRun, content, now).out.Ok?
    ensures var first := Submit(Reached(ops), session, user, key, workflow, turn, candidate, judgeRun, content, now);
            var s := After(first.after, more);
            Submit(s, session, user, key, workflow', turn', candidate', judgeRun', content', now')
              == (if SubmitRequest(workflow', turn') == SubmitRequest(workflow, turn) then Step(s, first.out) else Refuse(s, Conflict))
  {
    hide Reached, After, Submit, Recorded, Sound, ReceiptsMatch;
    var s := Reached(ops);
    var first := Submit(s, session, user, key, workflow, turn, candidate, judgeRun, content, now);
    RunSound(ops);
    GenerationSteps.SubmitKeeps(s, session, user, key, workflow, turn, candidate, judgeRun, content, now);
    assert Inv(first.after) by { SoundInv(s, first.after); }
    SubmitRecorded(s, session, user, key, workflow, turn, candidate, judgeRun, content, now);
    RecordedAfter(first.after, more, ReceiptKey(session, SubmitCandidate, key), user, SubmitRequest(workflow, turn), first.out.value);
    SubmitReplays(After(first.after, more), session, user, key, SubmitRequest(workflow, turn), first.out.value, workflow', turn', candidate', judgeRun', content', now');
  }

  lemma ConfirmRecorded(s: State, session: Id, user: Id, key: Id, workflow: Id, candidate: Id, names: Names, title: string, now: Time)
    requires ReceiptsMatch(s.receipts, s.workflows, s.candidates) && ConfirmReview(s, session, user, key, workflow, candidate, names, title, now).out.Ok?
    ensures var step := ConfirmReview(s, session, user, key, workflow, candidate, names, title, now);
            ReceiptsMatch(step.after.receipts, step.after.workflows, step.after.candidates) ==>
              Recorded(step.after, ReceiptKey(session, ConfirmContent, key), user, ContentRequest(workflow, candidate), step.out.value)
  {
  }

  lemma ConfirmReplays(s: State, session: Id, user: Id, key: Id, request: Request, answer: Id, workflow: Id, candidate: Id, names: Names, title: string, now: Time)
    requires Recorded(s, ReceiptKey(session, ConfirmContent, key), user, request, answer)
    requires title != ""
    ensures ConfirmReview(s, session, user, key, workflow, candidate, names, title, now)
            == (if ContentRequest(workflow, candidate) == request then Step(s, Ok(answer)) else Refuse(s, Conflict))
  {
  }

  /** Confirming the content is once and for all. */
  lemma ConfirmIsOnce(ops: seq<Op>, more: seq<Op>, session: Id, user: Id, key: Id, workflow: Id, candidate: Id, names: Names, title: string, now: Time,
                  workflow': Id, candidate': Id, names': Names, title': string, now': Time)
    requires ConfirmReview(Reached(ops), session, user, key, workflow, candidate, names, title, now).out.Ok?
    requires title' != ""
    ensures var first := ConfirmReview(Reached(ops), session, user, key, workflow, candidate, names, title, now);
            var s := After(first.after, more);
            ConfirmReview(s, session, user, key, workflow', candidate', names', title', now')
              == (if ContentRequest(workflow', candidate') == ContentRequest(workflow, candidate) then Step(s, first.out) else Refuse(s, Conflict))
  {
    hide Reached, After, ConfirmReview, Recorded, Sound, ReceiptsMatch;
    var s := Reached(ops);
    var first := ConfirmReview(s, session, user, key, workflow, candidate, names, title, now);
    RunSound(ops);
    GenerationSteps.ConfirmReviewKeeps(s, session, user, key, workflow, candidate, names, title, now);
    assert Inv(first.after) by { SoundInv(s, first.after); }
    ConfirmRecorded(s, session, user, key, workflow, candidate, names, title, now);
    RecordedAfter(first.after, more, ReceiptKey(session, ConfirmContent, key), user, ContentRequest(workflow, candidate), first.out.value);
    ConfirmReplays(After(first.after, more), session, user, key, ContentRequest(workflow, candidate), first.out.value, workflow', candidate', names', title', now');
  }

  lemma ChangeRecorded(s: State, session: Id, user: Id, key: Id, workflow: Id, candidate: Id, feedback: string, now: Time)
    requires ReceiptsMatch(s.receipts, s.workflows, s.candidates) && RequestChanges(s, session, user, key, workflow, candidate, feedback, now).out.Ok?
    ensures var step := RequestChanges(s, session, user, key, workflow, candidate, feedback, now);
            ReceiptsMatch(step.after.receipts, step.after.workflows, step.after.candidates) ==>
              Recorded(step.after, ReceiptKey(session, RequestContentChanges, key), user, ChangeRequest(workflow, candidate, feedback), step.out.value)
  {
  }

  lemma ChangeReplays(s: State, session: Id, user: Id, key: Id, request: Request, answer: Id, workflow: Id, candidate: Id, feedback: string, now: Time)
    requires Recorded(s, ReceiptKey(session, RequestContentChanges, key), user, request, answer)
    requires feedback != ""
    ensures RequestChanges(s, session, user, key, workflow, candidate, feedback, now)
            == (if ChangeRequest(workflow, candidate, feedback) == request then Step(s, Ok(answer)) else Refuse(s, Conflict))
  {
  }

  /** Requesting changes is once and for all. */
  lemma ChangeIsOnce(ops: seq<Op>, more: seq<Op>, session: Id, user: Id, key: Id, workflow: Id, candidate: Id, feedback: string, now: Time,
                  workflow': Id, candidate': Id, feedback': string, now': Time)
    requires RequestChanges(Reached(ops), session, user, key, workflow, candidate, feedback, now).out.Ok?
    requires feedback' != ""
    ensures var first := RequestChanges(Reached(ops), session, user, key, workflow, candidate, feedback, now);
            var s := After(first.after, more);
            RequestChanges(s, session, user, key, workflow', candidate', feedback', now')
              == (if ChangeRequest(workflow', candidate', feedback') == ChangeRequest(workflow, candidate, feedback) then Step(s, first.out) else Refuse(s, Conflict))
  {
    hide Reached, After, RequestChanges, Recorded, Sound, ReceiptsMatch;
    var s := Reached(ops);
    var first := RequestChanges(s, session, user, key, workflow, candidate, feedback, now);
    RunSound(ops);
    GenerationSteps.RequestChangesKeeps(s, session, user, key, workflow, candidate, feedback, now);
    assert Inv(first.after) by { SoundInv(s, first.after); }
    ChangeRecorded(s, session, user, key, workflow, candidate, feedback, now);
    RecordedAfter(first.after, more, ReceiptKey(session, RequestContentChanges, key), user, ChangeRequest(workflow, candidate, feedback), first.out.value);
    ChangeReplays(After(first.after, more), session, user, key, ChangeRequest(workflow, candidate, feedback), first.out.value, workflow', candidate', feedback', now');
  }

  lemma CancelRecorded(s: State, session: Id, user: Id, key: Id, workflow: Id)
    requires ReceiptsMatch(s.receipts, s.workflows, s.candidates) && CancelWorkflow(s, session, user, key, workflow).out.Ok?
    ensures var step := CancelWorkflow(s, session, user, key, workflow);
            ReceiptsMatch(step.after.receipts, step.after.workflows, step.after.candidates) ==>
              Recorded(step.after, ReceiptKey(session, CancelGeneration, key), user, CancelRequest(workflow), step.out.value)
  {
  }

  lemma CancelReplays(s: State, session: Id, user: Id, key: Id, request: Request, answer: Id, workflow: Id)
    requires Recorded(s, ReceiptKey(session, CancelGeneration, key), user, request, answer)
    ensures CancelWorkflow(s, session, user, key, workflow)
            == (if CancelRequest(workflow) == request then Step(s, Ok(answer)) else Refuse(s, Conflict))
  {
  }

  /** Cancelling is once and for all. */
  lemma CancelIsOnce(ops: seq<Op>, more: seq<Op>, session: Id, user: Id, key: Id, workflow: Id,
                  workflow': Id)
    requires CancelWorkflow(Reached(ops), session, user, key, workflow).out.Ok?
    ensures var first := CancelWorkflow(Reached(ops), session, user, key, workflow);
            var s := After(first.after, more);
            CancelWorkflow(s, session, user, key, workflow')
              == (if CancelRequest(workflow') == CancelRequest(workflow) then Step(s, first.out) else Refuse(s, Conflict))
  {
    hide Reached, After, CancelWorkflow, Recorded, Sound, ReceiptsMatch;
    var s := Reached(ops);
    var first := CancelWorkflow(s, session, user, key, workflow);
    RunSound(ops);
    GenerationSteps.CancelWorkflowKeeps(s, session, user, key, workflow);
    assert Inv(first.after) by { SoundInv(s, first.after); }
    CancelRecorded(s, session, user, key, workflow);
    RecordedAfter(first.after, more, ReceiptKey(session, CancelGeneration, key), user, CancelRequest(workflow), first.out.value);
    CancelReplays(After(first.after, more), session, user, key, CancelRequest(workflow), first.out.value, workflow');
  }
}
