/** Where every workflow can still get to: back to its author with what was wrong, and on to its publication. */
module GenerationRoad {
  import opened Base
  import opened Scenarios
  import opened Generation
  import opened GenerationInvariants
  import opened GenerationRuns
  import opened GenerationTheorems
  import opened GenerationProgress

  // ---- What was wrong is handed on ----

  lemma AgentsLeaveGenerating(s: State, op: AgentOp, id: Id)
    requires id in s.workflows && s.workflows[id].state == Generating
    ensures var t := NextAgent(s, op); id in t.workflows && t.workflows[id] == s.workflows[id]
  {
    hide FinalizeTables, MatchesCandidate, ReportOn;
  }

  lemma AuthorsLeaveGenerating(s: State, op: AuthorOp, id: Id)
    requires id in s.workflows && s.workflows[id].state == Generating
    ensures var t := NextAuthor(s, op);
            id in t.workflows && (t.workflows[id] == s.workflows[id] || t.workflows[id].version == s.workflows[id].version + 1)
  {
    hide PreparePublication, ReportOn, WorkflowFor, ActiveWorkspace;
  }

  /** While it is being generated a row waits: it changes only by becoming another version. */
  lemma GeneratingWaits(s: State, op: Op, id: Id)
    requires id in s.workflows && s.workflows[id].state == Generating
    ensures var t := Next(s, op);
            id in t.workflows && (t.workflows[id] == s.workflows[id] || t.workflows[id].version == s.workflows[id].version + 1)
  {
    hide NextWriter, NextAgent, NextAuthor, NextSpace;
    match op
    case Writer(w) => WriterWrites(s, w);
    case Agent(a) => AgentsLeaveGenerating(s, a, id);
    case Author(u) => AuthorsLeaveGenerating(s, u, id);
    case Space(p) => SpaceWrites(s, p);
  }

  lemma {:induction false} GeneratingStays(s: State, ops: seq<Op>, id: Id)
    requires Inv(s) && id in s.workflows && s.workflows[id].state == Generating
    requires id in After(s, ops).workflows && After(s, ops).workflows[id].version == s.workflows[id].version
    ensures After(s, ops).workflows[id] == s.workflows[id]
  {
    hide Inv, Next, Later;
    if ops != [] {
      var t := After(s, ops[..|ops| - 1]);
      AfterSound(s, ops[..|ops| - 1]);
      AfterSound(t, [ops[|ops| - 1]]);
      assert [ops[|ops| - 1]][..0] == [] && After(t, [ops[|ops| - 1]][..0]) == t;
      GeneratingStays(s, ops[..|ops| - 1], id);
      GeneratingWaits(t, ops[|ops| - 1], id);
    }
  }

  /** Whatever happens before the next submission, it is made to repair what the workflow was sent back with, on top of
      the candidate that was sent back. */
  lemma LastErrorIsHandedOn(s: State, more: seq<Op>, session: Id, user: Id, key: Id, workflow: Id, turn: Id, workspace: Id,
                            candidate: Id, judgeRun: Option<Id>, content: Id, now: Time)
    requires Inv(s) && workflow in s.workflows && s.workflows[workflow].state == Generating && s.workflows[workflow].candidate.Some?
    requires var u := After(s, more);
             && workflow in u.workflows && u.workflows[workflow].version == s.workflows[workflow].version
             && ReceiptKey(session, SubmitCandidate, key) !in u.receipts
             && workspace in u.workspaces && IsActiveFor(u.workspaces[workspace], workflow)
             && Submit(u, session, user, key, workflow, turn, candidate, judgeRun, content, now).out.Ok?
    ensures var t := Submit(After(s, more), session, user, key, workflow, turn, candidate, judgeRun, content, now).after;
            && candidate in t.candidates && t.candidates[candidate].content == content
            && t.candidates[candidate].repair == s.workflows[workflow].lastError
            && t.candidates[candidate].parent == s.workflows[workflow].candidate
  {
    hide Submit, After, Later;
    AfterSound(s, more);
    GeneratingStays(s, more, workflow);
    SubmissionStarts(After(s, more), session, user, key, workflow, turn, workspace, candidate, judgeRun, content, now);
  }

  /** In particular what the judge refused a candidate for. */
  lemma FeedbackIsHandedOn(s: State, claim: Claim, run: Id, feedback: string, at: Time, more: seq<Op>,
                           session: Id, user: Id, key: Id, turn: Id, workspace: Id, candidate: Id, judgeRun: Option<Id>, content: Id, now: Time)
    requires Inv(s) && FinalizeJudgement(s, claim, run, false, feedback, at).out.Ok?
    requires var u := After(FinalizeJudgement(s, claim, run, false, feedback, at).after, more);
             && claim.workflow in u.workflows && u.workflows[claim.workflow].version == claim.version + 1
             && ReceiptKey(session, SubmitCandidate, key) !in u.receipts
             && workspace in u.workspaces && IsActiveFor(u.workspaces[workspace], claim.workflow)
             && Submit(u, session, user, key, claim.workflow, turn, candidate, judgeRun, content, now).out.Ok?
    ensures var u := After(FinalizeJudgement(s, claim, run, false, feedback, at).after, more);
            var t := Submit(u, session, user, key, claim.workflow, turn, candidate, judgeRun, content, now).after;
            && claim.workflow in s.workflows && candidate in t.candidates
            && t.candidates[candidate].repair == feedback && t.candidates[candidate].parent == s.workflows[claim.workflow].candidate
  {
    hide Submit, After, Inv, FinalizeJudgement;
    JudgementDecides(s, claim, run, false, feedback, at);
    var op := Agent(Judges(claim, run, false, feedback, at));
    NextSound(s, op);
    SoundIsInv(s, op);
    LastErrorIsHandedOn(FinalizeJudgement(s, claim, run, false, feedback, at).after, more, session, user, key, claim.workflow, turn, workspace,
                        candidate, judgeRun, content, now);
  }

  lemma SoundIsInv(s: State, op: Op)
    requires Sound(s, Next(s, op))
    ensures Inv(Next(s, op))
  {
  }

  // ---- The road ----

  /** A run of steps leads from one state to another. */
  ghost predicate Leads(s: State, t: State) { exists ops :: After(s, ops) == t }

  lemma LeadsOn(s: State, t: State, op: Op)
    requires Leads(s, t)
    ensures Leads(s, Next(t, op))
  {
    hide Next;
    var ops :| After(s, ops) == t;
    assert (ops + [op])[..|ops|] == ops;
    assert After(s, ops + [op]) == Next(t, op);
  }

  /** There is always an identity not used yet. */
  lemma {:induction false} Unused(ids: set<Id>) returns (id: Id)
    ensures id !in ids
    ensures forall i <- ids :: i < id
  {
    if ids == {} {
      id := 0;
    } else {
      var i :| i in ids;
      var j := Unused(ids - {i});
      id := if i < j then j else i + 1;
      forall k | k in ids ensures k < id { if k != i { assert k in ids - {i}; } }
    }
  }

  /** The scenario is open to the session: it still stands where the session found it, or is not published yet. */
  ghost predicate OpenTo(pub: Tables, session: Id, row: Session) {
    Extensible(pub, row) && (row.target.None? ==>
      forall k <- pub.scenarios :: !(pub.scenarios[k].kind == Authoring && pub.scenarios[k].sourceRef == session))
  }

  /** On the road from s: the workflow is in this state, its session is the one it was, and nothing was published meanwhile. */
  ghost predicate On(s: State, t: State, id: Id, state: WorkflowState) {
    && Leads(s, t) && Inv(t)
    && id in s.workflows && id in t.workflows && t.workflows[id].state == state
    && t.workflows[id].session == s.workflows[id].session
    && t.pub == s.pub
    && s.workflows[id].session in s.sessions && s.workflows[id].session in t.sessions
    && t.sessions[s.workflows[id].session].user == s.sessions[s.workflows[id].session].user
    && t.sessions[s.workflows[id].session].target == s.sessions[s.workflows[id].session].target
  }

  lemma StartsOn(s: State, id: Id)
    requires Inv(s) && id in s.workflows
    ensures On(s, s, id, s.workflows[id].state)
  {
    assert Row(s, id);
    assert After(s, []) == s;
  }

  /** Steps that publish nothing. */
  predicate Publishless(op: Op) {
    match op
    case Writer(w) => w.AddRunnable? || w.AddReport?
    case Agent(a) => !a.Publishes?
    case _ => true
  }

  lemma AgentsPublishNothing(s: State, op: AgentOp)
    requires !op.Publishes?
    ensures NextAgent(s, op).pub == s.pub
  {
    hide MatchesCandidate, ReportOn;
  }

  lemma AuthorsPublishNothing(s: State, op: AuthorOp)
    ensures NextAuthor(s, op).pub == s.pub
  {
    hide PreparePublication, ReportOn, WorkflowFor, ActiveWorkspace;
  }

  lemma SpacePublishesNothing(s: State, op: SpaceOp)
    ensures NextSpace(s, op).pub == s.pub
  {
    hide NextSpace;
    SpaceWrites(s, op);
  }

  lemma WritersPublishNothing(s: State, op: WriterOp)
    requires op.AddRunnable? || op.AddReport?
    ensures NextWriter(s, op).pub == s.pub
  {
  }

  lemma PublishesNothing(s: State, op: Op)
    requires Publishless(op)
    ensures Next(s, op).pub == s.pub
  {
    hide NextWriter, NextAgent, NextAuthor, NextSpace;
    match op
    case Writer(w) => WritersPublishNothing(s, w);
    case Agent(a) => AgentsPublishNothing(s, a);
    case Author(u) => AuthorsPublishNothing(s, u);
    case Space(p) => SpacePublishesNothing(s, p);
  }

  /** One step of the workflow further along the road. */
  lemma GoesOn(s: State, t: State, id: Id, op: Op, from: WorkflowState, to: WorkflowState)
    requires On(s, t, id, from) && Publishless(op)
    requires id in Next(t, op).workflows && Next(t, op).workflows[id].state == to
    ensures On(s, Next(t, op), id, to)
  {
    hide Inv, Next, Leads;
    PublishesNothing(t, op);
    NextSound(t, op);
    SoundParts(t, Next(t, op));
    LeadsOn(s, t, op);
  }

  lemma SoundParts(t: State, u: State)
    requires Sound(t, u)
    ensures Inv(u) && SessionsStay(t.sessions, u.sessions) && WorkflowsMove(t.workflows, u.workflows)
  {
  }

  lemma OnFacts(s: State, t: State, id: Id, state: WorkflowState)
    requires On(s, t, id, state)
    ensures Inv(t) && id in s.workflows && id in t.workflows && t.workflows[id].state == state && t.pub == s.pub
    ensures t.workflows[id].session in t.sessions && OneCurrent(t.workspaces)
    ensures AtLeast(state, Judging) ==>
              && t.workflows[id].candidate.Some? && t.workflows[id].candidate.value in t.candidates
              && var c := t.candidates[t.workflows[id].candidate.value];
                 && (AtLeast(state, Verifying) ==> c.runnable.Some?)
                 && (state == Publishing ==> c.report.Some? && c.published.None? && c.publication.Some?)
  {
    assert Row(t, id);
    if AtLeast(state, Judging) { assert CandidateOf(t, t.workflows[id].candidate.value, t.workflows[id]); }
  }

  // ---- Judged ----

  lemma ClaimedOn(s: State, t: State, id: Id) returns (claim: Claim, at: Time, u: State)
    requires On(s, t, id, Judging)
    ensures On(s, u, id, Judging) && claim.workflow == id && Passes(u.workflows, claim, at)
  {
    hide Inv, On, ClaimWorkflow;
    OnFacts(s, t, id, Judging);
    var w := t.workflows[id];
    var owner := Unused(t.issued.Keys);
    at := if w.lease.Some? && w.lease.value.expires > w.nextRun then w.lease.value.expires else w.nextRun;
    var op := Agent(Claims(id, owner, 1, at));
    claim := Claim(id, w.version, owner);
    u := Next(t, op);
    ClaimLasts(t, id, owner, 1, at, at);
    GoesOn(s, t, id, op, Judging, Judging);
  }

  lemma StartedOn(s: State, t: State, id: Id, claim: Claim, at: Time) returns (run: Id, u: State)
    requires On(s, t, id, Judging) && claim.workflow == id && Passes(t.workflows, claim, at)
    ensures On(s, u, id, Judging) && Passes(u.workflows, claim, at) && u.workflows[id].run == Some(run)
    ensures run in u.runs && u.runs[run].status == Running
  {
    hide Inv, On, StartAgentRun, Passes;
    OnFacts(s, t, id, Judging);
    run := Unused(t.runs.Keys);
    var op := Agent(StartsRun(claim, run, 0, at));
    u := Next(t, op);
    RunStarts(t, claim, run, 0, at, at);
    GoesOn(s, t, id, op, Judging, Judging);
  }

  lemma ApprovedOn(s: State, t: State, id: Id, claim: Claim, run: Id, at: Time) returns (u: State)
    requires On(s, t, id, Judging) && claim.workflow == id && Passes(t.workflows, claim, at) && t.workflows[id].run == Some(run)
    requires run in t.runs && t.runs[run].status == Running
    ensures On(s, u, id, MaterializingArtifact)
  {
    hide Inv, On, FinalizeJudgement, Passes;
    OnFacts(s, t, id, Judging);
    JudgementDecides(t, claim, run, true, "", at);
    var op := Agent(Judges(claim, run, true, "", at));
    u := Next(t, op);
    GoesOn(s, t, id, op, Judging, MaterializingArtifact);
  }

  /** A judging workflow can be claimed, judged and approved. */
  lemma ToMaterializing(s: State, t: State, id: Id) returns (u: State)
    requires On(s, t, id, Judging)
    ensures On(s, u, id, MaterializingArtifact)
  {
    hide On, Passes;
    var claim, at, a := ClaimedOn(s, t, id);
    var run, b := StartedOn(s, a, id, claim, at);
    u := ApprovedOn(s, b, id, claim, run, at);
  }

  // ---- Built and verified ----

  lemma Adds(t: State, id: Id, runnable: RunnableRow, report: ReportRow)
    ensures id !in t.runnables && (forall k <- t.runnables :: t.runnables[k].digest != runnable.digest) ==>
              Next(t, Writer(AddRunnable(id, runnable))) == t.(runnables := t.runnables[id := runnable])
    ensures id !in t.reports && (forall k <- t.reports :: t.reports[k].digest != report.digest) ==>
              Next(t, Writer(AddReport(id, report))) == t.(reports := t.reports[id := report])
  {
  }

  lemma UnusedRunnable(rows: map<Id, RunnableRow>) returns (id: Id, digest: Id)
    ensures id !in rows && forall k <- rows :: rows[k].digest != digest
  {
    id := Unused(rows.Keys);
    digest := Unused(set k | k in rows :: rows[k].digest);
  }

  lemma UnusedReport(rows: map<Id, ReportRow>) returns (id: Id, digest: Id)
    ensures id !in rows && forall k <- rows :: rows[k].digest != digest
  {
    id := Unused(rows.Keys);
    digest := Unused(set k | k in rows :: rows[k].digest);
  }

  lemma BuildableOn(s: State, t: State, id: Id) returns (ref: RunnableRef, u: State)
    requires On(s, t, id, MaterializingArtifact)
    ensures On(s, u, id, MaterializingArtifact) && id in u.workflows && u.workflows[id].candidate.Some? && u.workflows[id].candidate.value in u.candidates
    ensures MatchesCandidate(u.runnables, ref, u.workflows[id].candidate.value, u.candidates[u.workflows[id].candidate.value].content)
  {
    hide Inv, On, Next;
    OnFacts(s, t, id, MaterializingArtifact);
    var candidate := t.workflows[id].candidate.value;
    var r, digest := UnusedRunnable(t.runnables);
    var row := RunnableRow(digest, true, candidate, t.candidates[candidate].content);
    ref := RunnableRef(r, digest);
    var op := Writer(AddRunnable(r, row));
    u := Next(t, op);
    Adds(t, r, row, ReportRow(0, 0, true));
    GoesOn(s, t, id, op, MaterializingArtifact, MaterializingArtifact);
  }

  lemma BuiltOn(s: State, t: State, id: Id, ref: RunnableRef) returns (u: State)
    requires On(s, t, id, MaterializingArtifact) && t.workflows[id].candidate.Some? && t.workflows[id].candidate.value in t.candidates
    requires MatchesCandidate(t.runnables, ref, t.workflows[id].candidate.value, t.candidates[t.workflows[id].candidate.value].content)
    ensures On(s, u, id, Verifying)
  {
    hide Inv, On, MarkMaterialized;
    OnFacts(s, t, id, MaterializingArtifact);
    MaterializationAdvances(t, id, ref, 0);
    var op := Agent(Materializes(id, ref, 0));
    u := Next(t, op);
    GoesOn(s, t, id, op, MaterializingArtifact, Verifying);
  }

  lemma ToVerifying(s: State, t: State, id: Id) returns (u: State)
    requires On(s, t, id, MaterializingArtifact)
    ensures On(s, u, id, Verifying)
  {
    hide On, MatchesCandidate;
    OnFacts(s, t, id, MaterializingArtifact);
    var ref, a := BuildableOn(s, t, id);
    u := BuiltOn(s, a, id, ref);
  }

  ghost predicate Reportable(t: State, id: Id, ref: ReportRef) {
    && id in t.workflows && t.workflows[id].candidate.Some? && t.workflows[id].candidate.value in t.candidates
    && t.candidates[t.workflows[id].candidate.value].runnable.Some?
    && ReportOn(t.reports, ref, t.candidates[t.workflows[id].candidate.value].runnable.value.digest)
    && t.reports[ref.id].passed
  }

  lemma ReportedOn(s: State, t: State, id: Id) returns (ref: ReportRef, u: State)
    requires On(s, t, id, Verifying)
    ensures On(s, u, id, Verifying) && Reportable(u, id, ref)
  {
    hide Inv, On, Next;
    OnFacts(s, t, id, Verifying);
    var revision := t.candidates[t.workflows[id].candidate.value].runnable.value.digest;
    var r, digest := UnusedReport(t.reports);
    var row := ReportRow(digest, revision, true);
    ref := ReportRef(r, digest);
    var op := Writer(AddReport(r, row));
    u := Next(t, op);
    Adds(t, r, RunnableRow(0, true, 0, 0), row);
    GoesOn(s, t, id, op, Verifying, Verifying);
  }

  lemma VerifiedOn(s: State, t: State, id: Id, ref: ReportRef) returns (u: State)
    requires On(s, t, id, Verifying) && Reportable(t, id, ref)
    ensures On(s, u, id, NeedsAuthorReview)
  {
    hide Inv, On, MarkVerified;
    OnFacts(s, t, id, Verifying);
    VerificationDecides(t, id, ref, 0);
    var op := Agent(Verifies(id, ref, 0));
    u := Next(t, op);
    GoesOn(s, t, id, op, Verifying, NeedsAuthorReview);
  }

  lemma ToReview(s: State, t: State, id: Id) returns (u: State)
    requires On(s, t, id, Verifying)
    ensures On(s, u, id, NeedsAuthorReview)
  {
    hide On, Reportable;
    var ref, a := ReportedOn(s, t, id);
    u := VerifiedOn(s, a, id, ref);
  }

  // ---- Confirmed and published ----

  /** The names a scenario and its revision are published under are not taken. */
  ghost predicate Unclaimed(pub: Tables, p: Publication) {
    && p.revision !in pub.revisions && p.path == Path(p.slug, p.revision)
    && (p.base.None? ==> p.scenario !in pub.scenarios && forall k <- pub.scenarios :: pub.scenarios[k].slug != p.slug)
  }

  lemma ConfirmedOn(s: State, t: State, id: Id) returns (u: State)
    requires On(s, t, id, NeedsAuthorReview) && Extensible(t.pub, t.sessions[t.workflows[id].session])
    ensures On(s, u, id, Publishing)
    ensures u.workflows[id].candidate.Some? && u.workflows[id].candidate.value in u.candidates
    ensures var p := u.candidates[u.workflows[id].candidate.value].publication;
            && p.Some? && Unclaimed(u.pub, p.value)
            && exists names: Names, title :: Extensible(u.pub, u.sessions[u.workflows[id].session])
                 && p.value == Reservation(u.pub, u.sessions[u.workflows[id].session], u.workflows[id].candidate.value, names, title)
  {
    hide Inv, On, ConfirmReview;
    OnFacts(s, t, id, NeedsAuthorReview);
    var session, candidate := t.workflows[id].session, t.workflows[id].candidate.value;
    var user := t.sessions[session].user;
    var key := Unused(set k | k in t.receipts :: k.key);
    assert ReceiptKey(session, ConfirmContent, key) !in t.receipts;
    var scenario := Unused(t.pub.scenarios.Keys);
    var revision := Unused(t.pub.revisions.Keys);
    var slug := Unused(set k | k in t.pub.scenarios :: t.pub.scenarios[k].slug);
    assert forall k <- t.pub.scenarios :: t.pub.scenarios[k].slug != slug;
    var names := Names(scenario, revision, slug);
    ConfirmationReserves(t, session, user, key, id, candidate, names, "t", 0);
    var op := Author(Confirms(session, user, key, id, candidate, names, "t", 0));
    u := Next(t, op);
    GoesOn(s, t, id, op, NeedsAuthorReview, Publishing);
    PublishesNothing(t, op);
    assert u.candidates[candidate].publication.value == Reservation(u.pub, u.sessions[session], candidate, names, "t");
  }

  /** What a reserved publication still needs: its scenario stands open to the session as it was reserved, and its
      names are not taken. */
  ghost predicate Room(pub: Tables, session: Id, row: Session, content: Id, p: Publication, materialized: Id) {
    && OpenTo(pub, session, row) && p.revision !in pub.revisions
    && match row.target
       case None => p.scenario !in pub.scenarios && forall k <- pub.scenarios :: pub.scenarios[k].slug != p.slug
       case Some(target) =>
         && p.scenario == target.scenario && p.base == Some(target.base) && p.slug == pub.scenarios[target.scenario].slug
         && forall k <- pub.revisions ::
              !(pub.revisions[k].scenario == p.scenario && pub.revisions[k].content == content && pub.revisions[k].materialized == materialized)
  }

  lemma FirstFits(pub: Tables, w: Workflow, row: Session, c: Candidate, p: Publication, materialized: Id)
    requires Consistent(pub) && row.target.None? && c.runnable.Some? && c.report.Some? && p.path == Path(p.slug, p.revision)
    ensures FinalizeTables(pub, row, w, c, p, materialized).Ok? <==> Room(pub, w.session, row, c.content, p, materialized)
  {
  }

  lemma NextFits(pub: Tables, w: Workflow, row: Session, c: Candidate, p: Publication, materialized: Id)
    requires Consistent(pub) && row.target.Some? && c.runnable.Some? && c.report.Some? && p.path == Path(p.slug, p.revision)
    ensures FinalizeTables(pub, row, w, c, p, materialized).Ok? <==> Room(pub, w.session, row, c.content, p, materialized)
  {
    var target := row.target.value;
    NoOrphan(pub);
    if target.scenario in pub.scenarios && p.scenario == target.scenario {
      OneActiveRevision(pub, target.scenario);
      hide Consistent;
      var active := pub.scenarios[target.scenario].active;
      SuccessorFits(pub, target.scenario, p.revision, PublishedRevision(w, c, p, Some(active), pub.scenarios[target.scenario].slug, materialized));
    }
  }

  /** A successor is refused only when its identity is taken or its scenario has the very same content. */
  lemma SuccessorFits(pub: Tables, scenario: Id, r: Id, row: Revision)
    requires scenario in pub.scenarios && pub.scenarios[scenario].active in pub.revisions && NoOrphans(pub)
    requires forall k <- pub.revisions :: pub.revisions[k].scenario == scenario ==>
               (pub.revisions[k].state == ActiveRevision <==> k == pub.scenarios[scenario].active)
    requires row.scenario == scenario && row.path.revision == r
    ensures PublishNext(pub, scenario, r, row).Some?
            <==> r !in pub.revisions
                 && forall k <- pub.revisions ::
                      !(pub.revisions[k].scenario == scenario && pub.revisions[k].content == row.content && pub.revisions[k].materialized == row.materialized)
  {
    var superseded := Supersede(pub, pub.scenarios[scenario].active);
    assert superseded.revisions.Keys == pub.revisions.Keys;
    if r !in pub.revisions {
      forall k | k in superseded.revisions
        ensures superseded.revisions[k].path != row.path
        ensures superseded.revisions[k].scenario == scenario ==> superseded.revisions[k].state != ActiveRevision
      {
        assert pub.revisions[k].path == Path(pub.revisions[k].slug, k);
      }
    }
  }

  lemma NoOrphan(pub: Tables)
    requires Consistent(pub)
    ensures NoOrphans(pub)
  {
  }

  /** In every run a reserved publication succeeds exactly when there is still room for it. */
  lemma PublishesIff(ops: seq<Op>, id: Id, materialized: Id, now: Time)
    requires InState(Reached(ops).workflows, id, Publishing)
    ensures var s := Reached(ops);
            var w := s.workflows[id];
            && w.candidate.Some? && w.candidate.value in s.candidates && w.session in s.sessions
            && var c := s.candidates[w.candidate.value];
               && c.publication.Some?
               && (FinalizePublication(s, id, w.candidate.value, c.content, materialized, now).out.Ok?
                   <==> Room(s.pub, w.session, s.sessions[w.session], c.content, c.publication.value, materialized))
  {
    hide Reached;
    RunSound(ops);
    ReservedFits(Reached(ops), id, materialized, now);
  }

  lemma ReservedFits(s: State, id: Id, materialized: Id, now: Time)
    requires Inv(s) && InState(s.workflows, id, Publishing)
    ensures var w := s.workflows[id];
            && w.candidate.Some? && w.candidate.value in s.candidates && w.session in s.sessions
            && var c := s.candidates[w.candidate.value];
               && c.publication.Some?
               && (FinalizePublication(s, id, w.candidate.value, c.content, materialized, now).out.Ok?
                   <==> Room(s.pub, w.session, s.sessions[w.session], c.content, c.publication.value, materialized))
  {
    assert Row(s, id);
    var w := s.workflows[id];
    assert CandidateOf(s, w.candidate.value, w) && Reserved(s, w.candidate.value) && Passed(s, w.candidate.value);
    hide Inv, Rows, Row, Progress, Room, FinalizeTables, Consistent;
    var c := s.candidates[w.candidate.value];
    assert Consistent(s.pub) by { PubConsistent(s); }
    if s.sessions[w.session].target.None? {
      FirstFits(s.pub, w, s.sessions[w.session], c, c.publication.value, materialized);
    } else {
      NextFits(s.pub, w, s.sessions[w.session], c, c.publication.value, materialized);
    }
  }

  lemma PubConsistent(s: State)
    requires Inv(s)
    ensures Consistent(s.pub)
  {
  }

  // ---- Published ----

  lemma PublishedOn(s: State, t: State, id: Id) returns (u: State)
    requires On(s, t, id, Publishing) && OpenTo(t.pub, t.workflows[id].session, t.sessions[t.workflows[id].session])
    requires t.workflows[id].candidate.Some? && t.workflows[id].candidate.value in t.candidates
    requires var p := t.candidates[t.workflows[id].candidate.value].publication;
             && p.Some? && Unclaimed(t.pub, p.value)
             && exists names: Names, title ::
                  p.value == Reservation(t.pub, t.sessions[t.workflows[id].session], t.workflows[id].candidate.value, names, title)
    ensures Leads(s, u) && id in u.workflows && u.workflows[id].state == Published
  {
    hide Inv, On, Next, FinalizePublication;
    OnFacts(s, t, id, Publishing);
    var w := t.workflows[id];
    var c := t.candidates[w.candidate.value];
    var materialized := Unused(set k | k in t.pub.revisions :: t.pub.revisions[k].materialized);
    assert forall k <- t.pub.revisions :: t.pub.revisions[k].materialized != materialized;
    ReservedFits(t, id, materialized, 0);
    PublicationTakesEffect(t, id, w.candidate.value, c.content, materialized, 0);
    var op := Agent(Publishes(id, w.candidate.value, c.content, materialized, 0));
    u := Next(t, op);
    PublishesIsFinalize(t, id, w.candidate.value, c.content, materialized);
    LeadsFrom(s, t, id, op);
  }

  lemma PublishesIsFinalize(t: State, id: Id, candidate: Id, content: Id, materialized: Id)
    ensures Next(t, Agent(Publishes(id, candidate, content, materialized, 0))) == FinalizePublication(t, id, candidate, content, materialized, 0).after
  {
  }

  lemma LeadsFrom(s: State, t: State, id: Id, op: Op)
    requires On(s, t, id, Publishing)
    ensures Leads(s, Next(t, op))
  {
    hide Next, Leads;
    LeadsOn(s, t, op);
  }

  // ---- Submitted ----

  /** The workspace a submission is made from. */
  ghost predicate HasSpace(t: State, id: Id, space: Id, turn: Option<Id>) {
    space in t.workspaces && IsActiveFor(t.workspaces[space], id) && t.workspaces[space].turn == turn
  }

  lemma SpaceGoesOn(s: State, t: State, id: Id, op: SpaceOp)
    requires On(s, t, id, Generating)
    ensures On(s, NextSpace(t, op), id, Generating)
  {
    hide Inv, Leads, NextSpace;
    SpaceWrites(t, op);
    GoesOn(s, t, id, Space(op), Generating, Generating);
  }

  lemma RetiredIsNotCurrent(t: State, id: Id, space: Id)
    requires OneCurrent(t.workspaces) && space in t.workspaces && IsCurrentFor(t.workspaces[space], id)
    ensures forall k <- NextSpace(t, RetiresCurrent(id)).workspaces :: !IsCurrentFor(NextSpace(t, RetiresCurrent(id)).workspaces[k], id)
  {
    assert exists k :: k in t.workspaces && IsCurrentFor(t.workspaces[k], id);
  }

  lemma ClearedOn(s: State, t: State, id: Id) returns (u: State)
    requires On(s, t, id, Generating)
    ensures On(s, u, id, Generating) && forall k <- u.workspaces :: !IsCurrentFor(u.workspaces[k], id)
  {
    hide Inv, On, NextSpace;
    OnFacts(s, t, id, Generating);
    u := t;
    if space :| space in t.workspaces && IsCurrentFor(t.workspaces[space], id) {
      u := NextSpace(t, RetiresCurrent(id));
      SpaceGoesOn(s, t, id, RetiresCurrent(id));
      RetiredIsNotCurrent(t, id, space);
    }
  }

  lemma ProvisionedOn(s: State, t: State, id: Id) returns (space: Id, u: State)
    requires On(s, t, id, Generating) && forall k <- t.workspaces :: !IsCurrentFor(t.workspaces[k], id)
    ensures On(s, u, id, Generating) && space in u.workspaces && IsCurrentFor(u.workspaces[space], id)
    ensures u.workspaces[space].sandbox.None? && u.workspaces[space].turn.None?
  {
    hide Inv, On;
    space := Unused(t.workspaces.Keys);
    var pvc := Unused(set k | k in t.workspaces :: t.workspaces[k].pvc);
    assert forall k <- t.workspaces :: t.workspaces[k].pvc != pvc;
    var row := Workspace(id, pvc, None, None, None, WorkspacePending);
    assert !Clashes(t.workspaces, space, row);
    u := NextSpace(t, Provisions(space, row));
    SpaceGoesOn(s, t, id, Provisions(space, row));
  }

  lemma TurnTakenOn(s: State, t: State, id: Id, space: Id) returns (u: State)
    requires On(s, t, id, Generating) && space in t.workspaces && IsCurrentFor(t.workspaces[space], id)
    requires t.workspaces[space].sandbox.None? && t.workspaces[space].turn.None?
    ensures On(s, u, id, Generating) && HasSpace(u, id, space, Some(0))
  {
    hide Inv, On, ActiveWorkspace;
    var a := NextSpace(t, Activates(space, 0));
    SpaceGoesOn(s, t, id, Activates(space, 0));
    OnFacts(s, a, id, Generating);
    ActiveIs(a, id, space);
    u := NextSpace(a, TakesTurn(id, 0));
    SpaceGoesOn(s, a, id, TakesTurn(id, 0));
  }

  lemma SubmittedOn(s: State, t: State, id: Id, space: Id) returns (u: State)
    requires On(s, t, id, Generating) && HasSpace(t, id, space, Some(0))
    ensures On(s, u, id, Judging)
  {
    hide Inv, On, Submit;
    OnFacts(s, t, id, Generating);
    var session := t.workflows[id].session;
    var user := t.sessions[session].user;
    var key := Unused(set k | k in t.receipts :: k.key);
    assert ReceiptKey(session, SubmitCandidate, key) !in t.receipts;
    var candidate := Unused(t.candidates.Keys);
    SubmitsIff(t, session, user, key, id, 0, space, candidate, None, 0, 0);
    SubmissionStarts(t, session, user, key, id, 0, space, candidate, None, 0, 0);
    var op := Author(Submits(session, user, key, id, 0, candidate, None, 0, 0));
    u := Next(t, op);
    GoesOn(s, t, id, op, Generating, Judging);
  }

  /** A workflow being generated can be given a workspace, and a candidate written in it submitted. */
  lemma ToJudging(s: State, t: State, id: Id) returns (u: State)
    requires On(s, t, id, Generating)
    ensures On(s, u, id, Judging)
  {
    hide On, HasSpace, IsCurrentFor;
    var a := ClearedOn(s, t, id);
    var space, b := ProvisionedOn(s, a, id);
    var c := TurnTakenOn(s, b, id, space);
    u := SubmittedOn(s, c, id, space);
  }

  // ---- Never stuck ----

  ghost predicate CanBePublished(s: State, id: Id) {
    exists more :: id in After(s, more).workflows && After(s, more).workflows[id].state == Published
  }

  lemma OpenStays(s: State, t: State, id: Id, state: WorkflowState)
    requires On(s, t, id, state) && OpenTo(s.pub, s.workflows[id].session, s.sessions[s.workflows[id].session])
    ensures t.workflows[id].session in t.sessions && OpenTo(t.pub, t.workflows[id].session, t.sessions[t.workflows[id].session])
  {
  }

  lemma FromReview(s: State, t: State, id: Id)
    requires On(s, t, id, NeedsAuthorReview) && OpenTo(s.pub, s.workflows[id].session, s.sessions[s.workflows[id].session])
    ensures CanBePublished(s, id)
  {
    OpenStays(s, t, id, NeedsAuthorReview);
    hide On, Unclaimed, Inv, Next, After;
    assert Extensible(t.pub, t.sessions[t.workflows[id].session]);
    var a := ConfirmedOn(s, t, id);
    OpenStays(s, a, id, Publishing);
    var u := PublishedOn(s, a, id);
    var more :| After(s, more) == u;
  }

  /** No workflow is ever stuck: whatever has happened to it, as long as it has not ended and its scenario is open to its
      session, the run can be continued until it is published. */
  lemma NeverStuck(ops: seq<Op>, id: Id)
    requires var s := Reached(ops);
             && id in s.workflows && !s.workflows[id].state.Terminal() && s.workflows[id].state != Publishing
             && s.workflows[id].session in s.sessions && OpenTo(s.pub, s.workflows[id].session, s.sessions[s.workflows[id].session])
    ensures CanBePublished(Reached(ops), id)
  {
    hide Reached, Inv, On, OpenTo, CanBePublished;
    RunSound(ops);
    var s := Reached(ops);
    StartsOn(s, id);
    var t, state := s, s.workflows[id].state;
    if state == Generating { t := ToJudging(s, t, id); state := Judging; }
    if state == Judging { t := ToMaterializing(s, t, id); state := MaterializingArtifact; }
    if state == MaterializingArtifact { t := ToVerifying(s, t, id); state := Verifying; }
    if state == Verifying { t := ToReview(s, t, id); state := NeedsAuthorReview; }
    FromReview(s, t, id);
  }

  const Opening: seq<Op> := [Writer(OpenSession(1, 1)), Writer(FinishPlan(1, 0, true)), Author(Starts(1, 1, 1, 1, 1, 0))]

  lemma OpensWorkflow()
    ensures var s := Reached(Opening);
            && s.pub == EmptyTables && s.sessions == map[1 := Session(1, IntentReview, 1, 0, None, None)]
            && s.workflows == map[1 := Workflow(1, 1, Generating, None, None, 1, None, 0, 0, "", None)]
  {
    assert Opening[..2][..1] == Opening[..1] && Opening[..1][..0] == [] && Opening[..0] == [];
    assert Reached(Opening[..0]) == Empty;
    var a, b := Reached(Opening[..1]), Reached(Opening[..2]);
    assert a == Next(Empty, Opening[0]);
    assert b == Next(a, Opening[1]);
    StartsIff(b, 1, 1, 1, 1, 1, 0);
    assert Reached(Opening) == Next(b, Opening[2]);
  }

  /** And so from the empty tables to a published scenario: the claims about published workflows are about something. */
  lemma SomethingIsPublished()
    ensures exists ops :: 1 in Reached(ops).workflows && Reached(ops).workflows[1].state == Published
  {
    hide Reached, After, OpenTo, Next;
    OpensWorkflow();
    OpenAtFirst(EmptyTables, Session(1, IntentReview, 1, 0, None, None));
    NeverStuck(Opening, 1);
    var more :| 1 in After(Reached(Opening), more).workflows && After(Reached(Opening), more).workflows[1].state == Published;
    ReachedThen(Opening, more);
    assert Reached(Opening + more) == After(Reached(Opening), more);
  }

  lemma OpenAtFirst(pub: Tables, row: Session)
    requires pub == EmptyTables && row.target.None?
    ensures OpenTo(pub, 1, row)
  {
  }
}
