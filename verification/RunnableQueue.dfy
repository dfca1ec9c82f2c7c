/** The queue of runnable actions: schedule, claim, renew, store output, fail, complete. */
module RunnableQueue {
  import opened Base

  datatype Phase = Materialize | Verify

  datatype ActionState = Queued | Running | Completed | Failed

  datatype FailureClass = ArtifactFault | InfrastructureFault

  datatype Failure = Failure(cls: FailureClass, code: string)

  datatype Lease = Lease(owner: Id, expires: Time)

  datatype Action = Action(
    phase: Phase, spec: Id, revision: Option<Id>, state: ActionState, attempt: nat, lease: Option<Lease>,
    nextRun: Time, created: Time, failure: Option<Failure>)

  /** A report refers to the captures of its phases' actions and assertions. */
  datatype ReportPhase = ReportPhase(actions: seq<seq<Id>>, assertions: seq<seq<Id>>)

  datatype Report = Report(id: Id, digest: Id, revision: Id, spec: Id, attempt: nat, phases: seq<ReportPhase>)

  /** Action keys, capture digests and revision digests are taken to be injective. */
  datatype Queue = Queue(
    actions: map<Id, Action>, sources: set<Id>, revisions: map<Id, Id>, outputs: set<Id>, reports: map<Id, Report>)

  const Empty := Queue(map[], {}, map[], {}, map[])

  datatype Step<+T> = Step(after: Queue, out: Outcome<T>)

  function Refuse<T>(q: Queue, error: Error): Step<T> { Step(q, Err(error)) }

  const MaxAttempts: nat := 8
  const RetryBase: Time := 5
  const RetryCap: Time := 300

  // ---- The retry curve ----

  function Doubled(base: Time, times: nat): Time
    decreases times
  {
    if times == 0 then base else 2 * Doubled(base, times - 1)
  }

  /** Doubling from the base, capped from the second attempt on. */
  function Backoff(attempt: nat): Time {
    if attempt <= 1 then RetryBase
    else if Doubled(RetryBase, attempt - 1) < RetryCap then Doubled(RetryBase, attempt - 1) else RetryCap
  }

  lemma {:induction false} DoubledGrows(base: Time, i: nat, j: nat)
    requires base > 0 && i <= j
    ensures 0 < Doubled(base, i) <= Doubled(base, j)
    decreases j
  {
    if j > 0 {
      if i < j { DoubledGrows(base, i, j - 1); } else { DoubledGrows(base, i - 1, j - 1); }
    }
  }

  /** The early return of the loop is harmless: later doublings would be capped too. */
  method RetryBackoff(attempt: nat) returns (delay: Time)
    ensures delay == Backoff(attempt)
  {
    delay := RetryBase;
    var i: nat := 1;
    while i < attempt
      invariant 1 <= i && (i <= attempt || i == 1)
      invariant delay == Doubled(RetryBase, i - 1) && (i > 1 ==> delay < RetryCap)
    {
      delay := delay * 2;
      i := i + 1;
      if delay >= RetryCap {
        DoubledGrows(RetryBase, i - 1, attempt - 1);
        return RetryCap;
      }
    }
  }

  /** Waiting never shrinks with more attempts, and never exceeds the cap. */
  lemma BackoffGrows(i: nat, j: nat)
    requires i <= j
    ensures RetryBase <= Backoff(i) <= Backoff(j) <= RetryCap
  {
    if i > 1 {
      DoubledGrows(RetryBase, i - 1, j - 1);
      DoubledGrows(RetryBase, 0, i - 1);
    } else if j > 1 {
      DoubledGrows(RetryBase, 0, j - 1);
    }
  }

  // ---- Transactions ----

  function StoreSource(q: Queue, source: Id): Step<()> {
    Step(q.(sources := q.sources + {source}), Ok(()))
  }

  /** Another writer's revision record. */
  function StoreRevision(q: Queue, id: Id, digest: Id): Step<()> {
    if id in q.revisions || digest in q.revisions.Values then Refuse(q, Constraint)
    else Step(q.(revisions := q.revisions[id := digest]), Ok(()))
  }

  function NewAction(phase: Phase, spec: Id, revision: Option<Id>, now: Time): Action {
    Action(phase, spec, revision, Queued, 0, None, now, now, None)
  }

  predicate GivenUpByTheWorld(a: Action) {
    a.state == Failed && a.failure.Some? && a.failure.value.cls == InfrastructureFault
  }

  function Rescheduled(a: Action, now: Time): Action {
    a.(state := Queued, attempt := 0, lease := None, nextRun := now, failure := None)
  }

  /** INSERT ... ON CONFLICT (action_key) DO UPDATE ... WHERE failed by infrastructure. */
  function Upsert(actions: map<Id, Action>, key: Id, first: Action, now: Time): map<Id, Action> {
    if key !in actions then actions[key := first]
    else if GivenUpByTheWorld(actions[key]) then actions[key := Rescheduled(actions[key], now)]
    else actions
  }

  /** Keys are digests of the identity, so a key never comes with another identity. */
  predicate SameIdentity(actions: map<Id, Action>, key: Id, phase: Phase, spec: Id) {
    key in actions ==> actions[key].phase == phase && actions[key].spec == spec
  }

  function ScheduleMaterialization(q: Queue, key: Id, spec: Id, source: Id, now: Time): Step<()> {
    if source !in q.sources then Refuse(q, NotFound)
    else if !SameIdentity(q.actions, key, Materialize, spec) then Refuse(q, Constraint)
    else Step(q.(actions := Upsert(q.actions, key, NewAction(Materialize, spec, None, now), now)), Ok(()))
  }

  function ScheduleVerification(q: Queue, key: Id, spec: Id, id: Id, digest: Id, now: Time): Step<()> {
    if id !in q.revisions || q.revisions[id] != digest then Refuse(q, NotFound)
    else if !SameIdentity(q.actions, key, Verify, spec) then Refuse(q, Constraint)
    else Step(q.(actions := Upsert(q.actions, key, NewAction(Verify, spec, Some(digest), now), now)), Ok(()))
  }

  predicate Claimable(a: Action, now: Time) {
    || (a.state == Queued && a.nextRun <= now)
    || (a.state == Running && a.lease.Some? && a.lease.value.expires <= now)
  }

  function ClaimQueue(actions: map<Id, Action>, locked: set<Id>, now: Time): map<Id, Place> {
    map k | k in actions && k !in locked && Claimable(actions[k], now) :: Place(actions[k].nextRun, actions[k].created, k)
  }

  /** The attempt counts claims, takeovers of expired leases included. */
  function Claim(q: Queue, key: Id, owner: Id, ttl: Time, now: Time): Step<nat> {
    if ttl <= 0 || key !in q.actions || !Claimable(q.actions[key], now) then Refuse(q, Invalid)
    else
      var a := q.actions[key];
      Step(q.(actions := q.actions[key := a.(state := Running, attempt := a.attempt + 1, lease := Some(Lease(owner, now + ttl)))]),
           Ok(a.attempt + 1))
  }

  /** The credential fence: a live lease under this owner's name. Which of the owner's claims is not asked. */
  predicate Live(actions: map<Id, Action>, key: Id, owner: Id, now: Time) {
    && key in actions && actions[key].state == Running
    && actions[key].lease.Some? && actions[key].lease.value.owner == owner && actions[key].lease.value.expires > now
  }

  function Renew(q: Queue, key: Id, owner: Id, ttl: Time, now: Time): Step<()> {
    if ttl <= 0 || !Live(q.actions, key, owner, now) then Refuse(q, LeaseLost)
    else Step(q.(actions := q.actions[key := q.actions[key].(lease := Some(Lease(owner, now + ttl)))]), Ok(()))
  }

  function StoreOutput(q: Queue, key: Id, owner: Id, capture: Id, now: Time): Step<()> {
    if !Live(q.actions, key, owner, now) || q.actions[key].phase != Verify then Refuse(q, LeaseLost)
    else if q.actions[key].revision.None? then Refuse(q, InvalidState)
    else Step(q.(outputs := q.outputs + {capture}), Ok(()))
  }

  const AttemptsExhausted := "attempts-exhausted"

  /** The row after an accepted failure report. */
  function AfterFailure(a: Action, failure: Failure, now: Time): Action {
    var world := failure.cls == InfrastructureFault;
    var again := world && a.attempt < MaxAttempts;
    a.(state := if again then Queued else Failed,
       lease := None,
       nextRun := if again then now + Backoff(a.attempt) else now,
       failure := Some(if world && !again then failure.(code := AttemptsExhausted) else failure))
  }

  function ReportFailure(q: Queue, key: Id, owner: Id, failure: Failure, now: Time): Step<()> {
    if failure.code == "" then Refuse(q, Invalid)
    else if !Live(q.actions, key, owner, now) then Refuse(q, LeaseLost)
    else Step(q.(actions := q.actions[key := AfterFailure(q.actions[key], failure, now)]), Ok(()))
  }

  /** The digest is the durable identity: a revision stored under any record id satisfies the action. */
  function Record(revisions: map<Id, Id>, id: Id, digest: Id): Option<map<Id, Id>> {
    if digest in revisions.Values then Some(revisions)
    else if id in revisions then None
    else Some(revisions[id := digest])
  }

  function CompleteMaterialization(q: Queue, key: Id, owner: Id, spec: Id, id: Id, digest: Id, now: Time): Step<()> {
    if !Live(q.actions, key, owner, now) || q.actions[key].phase != Materialize then Refuse(q, LeaseLost)
    else if q.actions[key].spec != spec then Refuse(q, Invalid)
    else match Record(q.revisions, id, digest)
      case None => Refuse(q, Constraint)
      case Some(revisions) =>
        Step(q.(revisions := revisions,
                actions := q.actions[key := q.actions[key].(state := Completed, revision := Some(digest), lease := None)]), Ok(()))
  }

  predicate PhaseStored(outputs: set<Id>, phase: ReportPhase) {
    && (forall i, j | 0 <= i < |phase.actions| && 0 <= j < |phase.actions[i]| :: phase.actions[i][j] in outputs)
    && (forall i, j | 0 <= i < |phase.assertions| && 0 <= j < |phase.assertions[i]| :: phase.assertions[i][j] in outputs)
  }

  /** Every output the report refers to was captured by the server. */
  predicate OutputsStored(outputs: set<Id>, report: Report) {
    forall i | 0 <= i < |report.phases| :: PhaseStored(outputs, report.phases[i])
  }

  /** ON CONFLICT (id) DO NOTHING; a digest known under another id is refused by its unique index. */
  function RecordReport(reports: map<Id, Report>, report: Report): Option<map<Id, Report>> {
    if report.id in reports then Some(reports)
    else if exists k <- reports :: reports[k].digest == report.digest then None
    else Some(reports[report.id := report])
  }

  function CompleteVerification(q: Queue, key: Id, owner: Id, report: Report, now: Time): Step<()> {
    if !Live(q.actions, key, owner, now) || q.actions[key].phase != Verify then Refuse(q, LeaseLost)
    else
      var a := q.actions[key];
      if a.spec != report.spec || a.revision != Some(report.revision) || a.attempt != report.attempt then Refuse(q, Invalid)
      else if !OutputsStored(q.outputs, report) then Refuse(q, NotFound)
      else match RecordReport(q.reports, report)
        case None => Refuse(q, Constraint)
        case Some(reports) =>
          Step(q.(reports := reports, actions := q.actions[key := a.(state := Completed, lease := None)]), Ok(()))
  }

  // ---- Runs ----

  datatype Op =
    | DoStoreSource(source: Id)
    | DoStoreRevision(id: Id, digest: Id)
    | DoScheduleMaterialization(key: Id, spec: Id, source: Id, now: Time)
    | DoScheduleVerification(key: Id, spec: Id, id: Id, digest: Id, now: Time)
    | DoClaim(key: Id, owner: Id, ttl: Time, now: Time)
    | DoRenew(key: Id, owner: Id, ttl: Time, now: Time)
    | DoStoreOutput(key: Id, owner: Id, capture: Id, now: Time)
    | DoReportFailure(key: Id, owner: Id, failure: Failure, now: Time)
    | DoCompleteMaterialization(key: Id, owner: Id, spec: Id, id: Id, digest: Id, now: Time)
    | DoCompleteVerification(key: Id, owner: Id, report: Report, now: Time)

  function Next(q: Queue, op: Op): Step<()> {
    match op
    case DoStoreSource(source) => StoreSource(q, source)
    case DoStoreRevision(id, digest) => StoreRevision(q, id, digest)
    case DoScheduleMaterialization(key, spec, source, now) => ScheduleMaterialization(q, key, spec, source, now)
    case DoScheduleVerification(key, spec, id, digest, now) => ScheduleVerification(q, key, spec, id, digest, now)
    case DoClaim(key, owner, ttl, now) =>
      var step := Claim(q, key, owner, ttl, now);
      Step(step.after, if step.out.Ok? then Ok(()) else Err(step.out.error))
    case DoRenew(key, owner, ttl, now) => Renew(q, key, owner, ttl, now)
    case DoStoreOutput(key, owner, capture, now) => StoreOutput(q, key, owner, capture, now)
    case DoReportFailure(key, owner, failure, now) => ReportFailure(q, key, owner, failure, now)
    case DoCompleteMaterialization(key, owner, spec, id, digest, now) => CompleteMaterialization(q, key, owner, spec, id, digest, now)
    case DoCompleteVerification(key, owner, report, now) => CompleteVerification(q, key, owner, report, now)
  }

  function After(q: Queue, ops: seq<Op>): Queue {
    if ops == [] then q else Next(After(q, ops[..|ops| - 1]), ops[|ops| - 1]).after
  }

  // ---- Invariants ----

  /** A running action is leased and no other is; results and failures sit where the schema has them. */
  ghost predicate RowOk(q: Queue, a: Action) {
    && (a.state == Running <==> a.lease.Some?)
    && (a.state == Running ==> a.attempt >= 1)
    && (a.phase == Materialize ==> (a.revision.Some? <==> a.state == Completed))
    && (a.phase == Verify ==> a.revision.Some?)
    && (a.revision.Some? ==> a.revision.value in q.revisions.Values)
    && (a.state == Failed ==> a.failure.Some?)
    && (GivenUpByTheWorld(a) ==> a.attempt >= MaxAttempts && a.failure.value.code == AttemptsExhausted)
  }

  ghost predicate Inv(q: Queue) {
    && (forall k <- q.actions :: RowOk(q, q.actions[k]))
    && (forall i, j | i in q.revisions && j in q.revisions && q.revisions[i] == q.revisions[j] :: i == j)
    && (forall r <- q.reports :: OutputsStored(q.outputs, q.reports[r]))
  }

  /** What one step may do: results stay, and only the rules below change a row. */
  ghost predicate Extends(q: Queue, t: Queue) {
    && (forall k <- q.actions :: k in t.actions && t.actions[k].phase == q.actions[k].phase && t.actions[k].spec == q.actions[k].spec)
    && (forall i <- q.revisions :: i in t.revisions && t.revisions[i] == q.revisions[i])
    && q.outputs <= t.outputs
    && (forall r <- q.reports :: r in t.reports && t.reports[r] == q.reports[r])
  }

  lemma CompletionExtends(q: Queue, op: Op)
    requires op.DoCompleteMaterialization? || op.DoCompleteVerification?
    ensures Extends(q, Next(q, op).after)
  {
    hide StoreSource, StoreRevision, ScheduleMaterialization, ScheduleVerification, Claim, Renew, StoreOutput, ReportFailure;
  }

  lemma NextExtends(q: Queue, op: Op)
    ensures Extends(q, Next(q, op).after)
  {
    hide CompleteMaterialization, CompleteVerification;
    if op.DoCompleteMaterialization? || op.DoCompleteVerification? { CompletionExtends(q, op); }
  }

  lemma ValuesStay(q: Queue, t: Queue, digest: Id)
    requires Extends(q, t) && digest in q.revisions.Values
    ensures digest in t.revisions.Values
  {
    var i :| i in q.revisions && q.revisions[i] == digest;
    assert t.revisions[i] == digest;
  }

  lemma RowStays(q: Queue, t: Queue, a: Action)
    requires Extends(q, t) && RowOk(q, a)
    ensures RowOk(t, a)
  {
    if a.revision.Some? { ValuesStay(q, t, a.revision.value); }
  }

  lemma RecordedThere(revisions: map<Id, Id>, id: Id, digest: Id)
    requires Record(revisions, id, digest).Some?
    ensures digest in Record(revisions, id, digest).value.Values
  {
    var after := Record(revisions, id, digest).value;
    if digest !in revisions.Values {
      assert after[id] == digest;
    }
  }

  lemma CompletedRow(q: Queue, op: Op, k: Id)
    requires Inv(q) && k in Next(q, op).after.actions
    requires op.DoCompleteMaterialization? || op.DoCompleteVerification?
    ensures RowOk(Next(q, op).after, Next(q, op).after.actions[k])
  {
    hide OutputsStored, Record, RecordReport, Extends, StoreSource, StoreRevision, ScheduleMaterialization, ScheduleVerification,
      Claim, Renew, StoreOutput, ReportFailure;
    var t := Next(q, op).after;
    NextExtends(q, op);
    if k in q.actions { RowStays(q, t, q.actions[k]); }
    if op.DoCompleteMaterialization? && Next(q, op).out.Ok? { RecordedThere(q.revisions, op.id, op.digest); }
  }

  lemma NextRow(q: Queue, op: Op, k: Id)
    requires Inv(q) && k in Next(q, op).after.actions
    ensures RowOk(Next(q, op).after, Next(q, op).after.actions[k])
  {
    hide OutputsStored, CompleteMaterialization, CompleteVerification, Extends, Backoff;
    if op.DoCompleteMaterialization? || op.DoCompleteVerification? {
      CompletedRow(q, op, k);
    } else {
      NextExtends(q, op);
      if k in q.actions { RowStays(q, Next(q, op).after, q.actions[k]); }
    }
  }

  lemma NextInv(q: Queue, op: Op)
    requires Inv(q)
    ensures Inv(Next(q, op).after)
  {
    hide RowOk, OutputsStored;
    var t := Next(q, op).after;
    forall k | k in t.actions ensures RowOk(t, t.actions[k]) {
      NextRow(q, op, k);
    }
    forall r | r in t.reports ensures OutputsStored(t.outputs, t.reports[r]) {
      NextReport(q, op, r);
    }
  }

  lemma NextReport(q: Queue, op: Op, r: Id)
    requires Inv(q) && r in Next(q, op).after.reports
    ensures OutputsStored(Next(q, op).after.outputs, Next(q, op).after.reports[r])
  {
    hide RowOk;
  }
}
