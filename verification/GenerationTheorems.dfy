/** What holds after every run. */
module GenerationTheorems {
  import opened Base
  import opened Scenarios
  import opened Generation
  import opened GenerationInvariants
  import GenerationPublication
  import GenerationSteps
  import opened GenerationRuns

  // ---- Induction over runs ----

  lemma EmptyInv()
    ensures Inv(Empty)
  {
  }

  /** What is left of `Moves` over many steps. */
  ghost predicate Descends(a: map<Id, Workflow>, b: map<Id, Workflow>) {
    forall id <- a ::
      && id in b && b[id].session == a[id].session && b[id].plan == a[id].plan && b[id].version >= a[id].version
      && (a[id].state.Terminal() ==> b[id] == a[id])
  }

  lemma LaterTransitive(s: State, t: State, u: State)
    requires Later(s, t) && Later(t, u)
    ensures Later(s, u)
  {
    hide CandidatesStay, RunsStay, Grows;
    CandidatesStayOn(s.candidates, t.candidates, u.candidates);
    RunsStayOn(s.runs, t.runs, u.runs);
    GrowsOn(s.pub, t.pub, u.pub);
  }

  lemma CandidatesStayOn(a: map<Id, Candidate>, b: map<Id, Candidate>, c: map<Id, Candidate>)
    requires CandidatesStay(a, b) && CandidatesStay(b, c)
    ensures CandidatesStay(a, c)
  {
  }

  lemma RunsStayOn(a: map<Id, Run>, b: map<Id, Run>, c: map<Id, Run>)
    requires RunsStay(a, b) && RunsStay(b, c)
    ensures RunsStay(a, c)
  {
  }

  lemma GrowsOn(a: Tables, b: Tables, c: Tables)
    requires Grows(a, b) && Grows(b, c)
    ensures Grows(a, c)
  {
  }

  lemma DescendsFurther(a: map<Id, Workflow>, b: map<Id, Workflow>, c: map<Id, Workflow>)
    requires Descends(a, b) && WorkflowsMove(b, c)
    ensures Descends(a, c)
  {
  }

  lemma DescendsRefl(a: map<Id, Workflow>)
    ensures Descends(a, a)
  {
  }

  lemma {:induction false} AfterSound(s: State, ops: seq<Op>)
    requires Inv(s)
    ensures Inv(After(s, ops)) && Later(s, After(s, ops)) && Descends(s.workflows, After(s, ops).workflows)
  {
    hide Inv, Later, WorkflowsMove, LeasesFollow, Descends, Next;
    if ops == [] {
      GenerationSteps.Reflexive(s);
      DescendsRefl(s.workflows);
    } else {
      var t := After(s, ops[..|ops| - 1]);
      AfterSound(s, ops[..|ops| - 1]);
      NextSound(t, ops[|ops| - 1]);
      LaterTransitive(s, t, Next(t, ops[|ops| - 1]));
      DescendsFurther(s.workflows, t.workflows, Next(t, ops[|ops| - 1]).workflows);
    }
  }

  lemma RunSound(ops: seq<Op>)
    ensures Inv(Reached(ops))
  {
    hide Inv, Next, Later, Descends;
    EmptyInv();
    AfterSound(Empty, ops);
  }

  lemma ReachedNext(ops: seq<Op>, op: Op)
    ensures Reached(ops + [op]) == Next(Reached(ops), op)
  {
    hide Next;
    assert (ops + [op])[..|ops|] == ops;
  }

  // ---- What publication rests on ----

  /** Whatever loops of rejection, failed verification and requested changes came before: a
      published workflow's candidate was approved, built, verified, and its revision is public. */
  lemma PublishedIsVerified(ops: seq<Op>, id: Id)
    requires id in Reached(ops).workflows && Reached(ops).workflows[id].state == Published
    ensures var s := Reached(ops);
            var candidate := s.workflows[id].candidate;
            && candidate.Some? && candidate.value in s.candidates
            && s.candidates[candidate.value].failure.None?
            && Approved(s, id, candidate.value) && Built(s, candidate.value) && Passed(s, candidate.value)
            && Reserved(s, candidate.value) && Public(s, s.workflows[id], candidate.value)
  {
    hide Reached, Approved, Built, Passed;
    RunSound(ops);
    assert Row(Reached(ops), id);
  }

  /** Conversely nothing authored is public without such a workflow behind it. */
  lemma PublicIsVerified(ops: seq<Op>, r: Id)
    requires r in Reached(ops).pub.revisions && Reached(ops).pub.revisions[r].kind == Authoring
    ensures exists id ::
              var s := Reached(ops);
              && OriginOf(s.workflows, s.candidates, r, id)
              && Approved(s, id, s.workflows[id].candidate.value)
              && Built(s, s.workflows[id].candidate.value) && Passed(s, s.workflows[id].candidate.value)
              && s.candidates[s.workflows[id].candidate.value].runnable == Some(s.pub.revisions[r].runnable)
              && s.candidates[s.workflows[id].candidate.value].report == Some(s.pub.revisions[r].report)
              && s.candidates[s.workflows[id].candidate.value].content == s.pub.revisions[r].content
  {
    hide Reached, Approved, Built, Passed;
    RunSound(ops);
    var s := Reached(ops);
    var id :| OriginOf(s.workflows, s.candidates, r, id);
    PublishedIsVerified(ops, id);
  }

  // ---- Leases, versions, terminal states ----

  lemma LeaseOnlyInJudging(ops: seq<Op>, id: Id)
    requires id in Reached(ops).workflows
    ensures var w := Reached(ops).workflows[id];
            (w.lease.Some? || w.run.Some? ==> w.state == Judging)
            && (w.run.Some? ==> JudgeRunOf(Reached(ops), w.run.value, id))
  {
    hide Reached;
    RunSound(ops);
    assert Row(Reached(ops), id);
  }

  /** A terminal row is never written again. */
  lemma TerminalIsFinal(ops: seq<Op>, more: seq<Op>, id: Id)
    requires id in Reached(ops).workflows && Reached(ops).workflows[id].state.Terminal()
    ensures id in After(Reached(ops), more).workflows && After(Reached(ops), more).workflows[id] == Reached(ops).workflows[id]
  {
    hide Reached, After, Inv, Later;
    RunSound(ops);
    AfterSound(Reached(ops), more);
  }

  ghost predicate Changes(s: State, op: Op, id: Id) {
    id in s.workflows && id in Next(s, op).workflows && Next(s, op).workflows[id].state != s.workflows[id].state
  }

  /** The finalizer's way out: the one change of state that leaves the version alone. */
  ghost predicate Surrenders(s: State, op: Op, id: Id) {
    Changes(s, op, id) && s.workflows[id].state == Publishing && Next(s, op).workflows[id].state == Failed
  }

  ghost function CountChanges(ops: seq<Op>, id: Id): nat {
    if ops == [] then 0
    else CountChanges(ops[..|ops| - 1], id) + (if Changes(Reached(ops[..|ops| - 1]), ops[|ops| - 1], id) then 1 else 0)
  }

  ghost function Surrendered(ops: seq<Op>, id: Id): nat {
    if ops == [] then 0
    else Surrendered(ops[..|ops| - 1], id) + (if Surrenders(Reached(ops[..|ops| - 1]), ops[|ops| - 1], id) then 1 else 0)
  }

  /** The version counts the changes of state, all but the finalizer's surrender, of which there is at most one. */
  lemma {:induction false} VersionCountsChanges(ops: seq<Op>, id: Id)
    ensures id !in Reached(ops).workflows ==> CountChanges(ops, id) == 0 && Surrendered(ops, id) == 0
    ensures id in Reached(ops).workflows ==>
              && Reached(ops).workflows[id].version + Surrendered(ops, id) == 1 + CountChanges(ops, id)
              && Surrendered(ops, id) <= 1
              && (Surrendered(ops, id) == 1 ==> Reached(ops).workflows[id].state == Failed)
  {
    hide Inv, Later, LeasesFollow, Next;
    if ops != [] {
      var before := ops[..|ops| - 1];
      VersionCountsChanges(before, id);
      RunSound(before);
      NextSound(Reached(before), ops[|ops| - 1]);
    }
  }

  // ---- Claims ----

  ghost predicate Holds(s: State, claim: Claim) {
    claim.workflow in s.workflows && s.workflows[claim.workflow].lease.Some?
    && s.workflows[claim.workflow].lease.value.owner == claim.owner
  }

  /** Of all claims ever issued on a workflow, at most one passes the fence, and it was issued for the current version. */
  lemma OneClaimPasses(ops: seq<Op>, c: Claim, d: Claim, now: Time)
    requires Passes(Reached(ops).workflows, c, now)
    ensures c.owner in Reached(ops).issued && Reached(ops).issued[c.owner] == c
    ensures d.workflow == c.workflow && Passes(Reached(ops).workflows, d, now) ==> d == c
  {
    hide Reached;
    RunSound(ops);
  }

  /** A claim that lost its lease, by a takeover or otherwise, never passes again. */
  lemma {:induction false} LostClaimIsDead(s: State, ops: seq<Op>, claim: Claim)
    requires Inv(s) && claim.owner in s.issued && !Holds(s, claim)
    ensures claim.owner in After(s, ops).issued && !Holds(After(s, ops), claim)
    ensures forall now :: !Passes(After(s, ops).workflows, claim, now)
  {
    hide Inv, Next;
    if ops != [] {
      LostClaimIsDead(s, ops[..|ops| - 1], claim);
      AfterSound(s, ops[..|ops| - 1]);
      NextSound(After(s, ops[..|ops| - 1]), ops[|ops| - 1]);
    }
  }

  /** A fresh claim takes the workflow from every earlier one. */
  lemma TakeoverIsForever(ops: seq<Op>, id: Id, owner: Id, ttl: Time, now: Time, more: seq<Op>, earlier: Claim, at: Time)
    requires owner !in Reached(ops).issued && ClaimWorkflow(Reached(ops), id, owner, ttl, now).out.Ok?
    requires earlier.owner in Reached(ops).issued && earlier.workflow == id
    ensures !Passes(After(ClaimWorkflow(Reached(ops), id, owner, ttl, now).after, more).workflows, earlier, at)
  {
    hide Reached, Inv, After;
    RunSound(ops);
    var t := ClaimWorkflow(Reached(ops), id, owner, ttl, now).after;
    GenerationSteps.ClaimKeeps(Reached(ops), id, owner, ttl, now);
    LostClaimIsDead(t, more, earlier);
  }

  /** The three ways a claim ends the judging of its workflow. */
  ghost predicate EndsJudging(s: State, op: Op, claim: Claim) {
    op.Agent? &&
    match op.a
    case Judges(c, run, approved, feedback, now) => c == claim && FinalizeJudgement(s, c, run, approved, feedback, now).out.Ok?
    case Rejects(c, failure, now) => c == claim && ReportArtifactFailure(s, c, failure, now).out.Ok?
    case RetriesRun(c, run, message, now) => c == claim && RetryAgentRun(s, c, run, message, now).out == Ok(false)
    case _ => false
  }

  ghost predicate Ended(s: State, t: State, claim: Claim) {
    && claim.workflow in s.workflows && s.workflows[claim.workflow].state == Judging
    && s.workflows[claim.workflow].version == claim.version
    && claim.workflow in t.workflows && t.workflows[claim.workflow].version == claim.version + 1
  }

  lemma JudgementEnds(s: State, claim: Claim, run: Id, approved: bool, feedback: string, now: Time)
    requires FinalizeJudgement(s, claim, run, approved, feedback, now).out.Ok?
    ensures Ended(s, FinalizeJudgement(s, claim, run, approved, feedback, now).after, claim)
  {
  }

  lemma RejectionEnds(s: State, claim: Claim, failure: Failure, now: Time)
    requires ReportArtifactFailure(s, claim, failure, now).out.Ok?
    ensures Ended(s, ReportArtifactFailure(s, claim, failure, now).after, claim)
  {
  }

  lemma LastRetryEnds(s: State, claim: Claim, run: Id, message: string, now: Time)
    requires RetryAgentRun(s, claim, run, message, now).out == Ok(false)
    ensures Ended(s, RetryAgentRun(s, claim, run, message, now).after, claim)
  {
  }

  lemma EndsOneEntry(s: State, op: Op, claim: Claim)
    requires EndsJudging(s, op, claim)
    ensures Ended(s, Next(s, op), claim)
  {
    hide Ended, FinalizeJudgement, ReportArtifactFailure, RetryAgentRun;
    match op.a {
      case Judges(c, run, approved, feedback, now) => JudgementEnds(s, c, run, approved, feedback, now);
      case Rejects(c, failure, now) => RejectionEnds(s, c, failure, now);
      case RetriesRun(c, run, message, now) => LastRetryEnds(s, c, run, message, now);
      case _ =>
    }
  }

  /** Each entry to Judging is ended at most once, by whichever claim: a later ending is of a later version. */
  lemma EntryEndsOnce(ops: seq<Op>, i: nat, j: nat, c: Claim, d: Claim)
    requires i < j < |ops| && c.workflow == d.workflow
    requires EndsJudging(Reached(ops[..i]), ops[i], c) && EndsJudging(Reached(ops[..j]), ops[j], d)
    ensures c.version < d.version
  {
    hide Inv, Next, EndsJudging, Later, Reached;
    EndsOneEntry(Reached(ops[..i]), ops[i], c);
    EndsOneEntry(Reached(ops[..j]), ops[j], d);
    assert ops[..i] + [ops[i]] == ops[..i + 1];
    ReachedNext(ops[..i], ops[i]);
    RunSound(ops[..i + 1]);
    AfterSound(Reached(ops[..i + 1]), ops[i + 1..j]);
    assert ops[..i + 1] + ops[i + 1..j] == ops[..j];
    ReachedThen(ops[..i + 1], ops[i + 1..j]);
  }

  lemma {:induction false} ReachedThen(ops: seq<Op>, more: seq<Op>)
    ensures Reached(ops + more) == After(Reached(ops), more)
  {
    hide Next;
    if more == [] {
      assert ops + more == ops;
    } else {
      var init := more[..|more| - 1];
      ReachedThen(ops, init);
      assert ops + more == (ops + init) + [more[|more| - 1]];
      ReachedNext(ops + init, more[|more| - 1]);
    }
  }
}
