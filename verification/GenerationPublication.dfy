/** Creating workflows, publishing scenarios, and the steps of the tables' other writers. */
module GenerationPublication {
  import opened Base
  import opened Scenarios
  import opened Generation
  import opened GenerationInvariants
  import opened GenerationSteps

  // ---- A new workflow ----

  lemma NewWorkflowUnique(a: map<Id, Workflow>, id: Id, w: Workflow)
    requires OnePerPlan(a) && id !in a && w.version == 1 && forall k <- a :: !ForPlan(a[k], w.session, w.plan)
    ensures OnePerPlan(a[id := w]) && WorkflowsMove(a, a[id := w])
  {
  }

  lemma NewWorkflowUnclaimed(issued: map<Id, Claim>, a: map<Id, Workflow>, id: Id, w: Workflow)
    requires ClaimsIssued(issued, a) && id !in a && w.lease.None?
    ensures ClaimsIssued(issued, a[id := w]) && LeasesFollow(issued, a, a[id := w])
  {
  }

  lemma NewWorkflowRow(s: State, t: State, id: Id, j: Id)
    requires Later(s, t) && t.candidates == s.candidates && j in t.workflows
    requires if j == id then t.workflows[j].state == Generating && t.workflows[j].version >= 1 && t.workflows[j].session in t.sessions
                             && t.workflows[j].lease.None? && t.workflows[j].run.None? && t.workflows[j].candidate.None?
             else j in s.workflows && t.workflows[j] == s.workflows[j] && Row(s, j)
    ensures Row(t, j)
  {
    hide Later, Approved, Built, Passed, Reserved, Public;
    if j != id { RowFrame(s, t, j); }
  }

  lemma ReceiptOnlyKeeps(s: State, k: ReceiptKey, r: Receipt)
    requires Inv(s) && k !in s.receipts && ReceiptShape(s.workflows, s.candidates, k, r)
    ensures Sound(s, s.(receipts := s.receipts[k := r]))
  {
    hide CandidatesStay, RunsStay, Grows, Kept, SessionsStay, ReceiptsStay, OneCurrent, Row, ReceiptShape,
      OnePerPlan, EndedVerdicts, ClaimsIssued, LeasesFollow, ReceiptsMatch, Consistent, Authored, WorkflowsMove;
    var t := s.(receipts := s.receipts[k := r]);
    Reflexive(s);
    ReceiptStays(s.receipts, k, r);
    forall j | j in t.workflows ensures Row(t, j) {
      AsideRow(s, t, j);
    }
    ReceiptAdded(s, t, k, r);
  }

  lemma NewWorkflowKeeps(s: State, id: Id, w: Workflow)
    requires Inv(s) && id !in s.workflows && forall j <- s.workflows :: !ForPlan(s.workflows[j], w.session, w.plan)
    requires w == NewWorkflow(w.session, w.plan, w.created) && w.session in s.sessions
    ensures Sound(s, s.(workflows := s.workflows[id := w]))
  {
    hide CandidatesStay, RunsStay, Grows, Kept, SessionsStay, ReceiptsStay, OneCurrent, Row,
      OnePerPlan, EndedVerdicts, ClaimsIssued, LeasesFollow, ReceiptsMatch, Consistent, Authored, WorkflowsMove;
    var t := s.(workflows := s.workflows[id := w]);
    Reflexive(s);
    NewWorkflowUnique(s.workflows, id, w);
    NewWorkflowUnclaimed(s.issued, s.workflows, id, w);
    forall j | j in t.workflows ensures Row(t, j) {
      NewWorkflowRow(s, t, id, j);
    }
    ReceiptsFrame(s, t);
    AuthoredFrame(s, t);
  }

  /** Two sound changes that touch different tables make one sound step. */
  lemma ThenReceipt(s: State, m: State, k: ReceiptKey, r: Receipt)
    requires Inv(s) && Sound(s, m) && m.receipts == s.receipts && k !in s.receipts
    requires ReceiptShape(m.workflows, m.candidates, k, r)
    ensures Sound(s, m.(receipts := m.receipts[k := r]))
  {
    hide CandidatesStay, RunsStay, Grows, Kept, SessionsStay, ReceiptsStay, Inv, LeasesFollow, WorkflowsMove, ReceiptShape;
    ReceiptOnlyKeeps(m, k, r);
    ReceiptStays(s.receipts, k, r);
  }

  lemma CreateWorkflowKeeps(s: State, session: Id, user: Id, plan: nat, key: Id, newId: Id, now: Time)
    requires Inv(s)
    ensures Sound(s, CreateWorkflow(s, session, user, plan, key, newId, now).after)
  {
    hide Sound, Inv;
    var t := CreateWorkflow(s, session, user, plan, key, newId, now).after;
    var rkey := ReceiptKey(session, ConfirmGeneration, key);
    if t == s { Stays(s); }
    else if WorkflowFor(s.workflows, session, plan).Some? {
      ReceiptOnlyKeeps(s, rkey, t.receipts[rkey]);
    } else {
      NewWorkflowKeeps(s, newId, NewWorkflow(session, plan, now));
      ThenReceipt(s, s.(workflows := s.workflows[newId := NewWorkflow(session, plan, now)]), rkey, t.receipts[rkey]);
    }
  }

  // ---- Sessions, plans, runs, and the runnable records ----

  lemma CreateSessionKeeps(s: State, id: Id, user: Id)
    requires Inv(s)
    ensures Sound(s, CreateSession(s, id, user).after)
  {
    hide Inv, Sound, CandidatesStay, RunsStay, Grows, Kept, SessionsStay, ReceiptsStay, OneCurrent;
    var t := CreateSession(s, id, user).after;
    if t == s { Stays(s); } else {
      Reflexive(s);
      CurrentOf(s);
      if id in t.sessions { SessionStays(s.sessions, id, t.sessions[id]); }
      AsideKeeps(s, t);
    }
  }

  lemma CreateRevisionSessionKeeps(s: State, id: Id, user: Id, scenario: Id)
    requires Inv(s)
    ensures Sound(s, CreateRevisionSession(s, id, user, scenario).after)
  {
    hide Inv, Sound, CandidatesStay, RunsStay, Grows, Kept, SessionsStay, ReceiptsStay, OneCurrent;
    var t := CreateRevisionSession(s, id, user, scenario).after;
    if t == s { Stays(s); } else {
      Reflexive(s);
      CurrentOf(s);
      if id in t.sessions { SessionStays(s.sessions, id, t.sessions[id]); }
      AsideKeeps(s, t);
    }
  }

  lemma SavePlanKeeps(s: State, session: Id, expected: nat, wellFormed: bool)
    requires Inv(s)
    ensures Sound(s, SavePlan(s, session, expected, wellFormed).after)
  {
    hide Inv, Sound, CandidatesStay, RunsStay, Grows, Kept, SessionsStay, ReceiptsStay, OneCurrent;
    var t := SavePlan(s, session, expected, wellFormed).after;
    if t == s { Stays(s); } else {
      Reflexive(s);
      CurrentOf(s);
      if session in t.sessions { SessionStays(s.sessions, session, t.sessions[session]); }
      AsideKeeps(s, t);
    }
  }

  lemma EndRunKeeps(s: State, id: Id, status: RunStatus)
    requires Inv(s)
    ensures Sound(s, EndRun(s, id, status).after)
  {
    hide Inv, Sound, CandidatesStay, Grows, Kept, SessionsStay, ReceiptsStay, OneCurrent;
    Reflexive(s);
    CurrentOf(s);
    AsideKeeps(s, EndRun(s, id, status).after);
  }

  lemma StoreRunnableKeeps(s: State, id: Id, row: RunnableRow)
    requires Inv(s)
    ensures Sound(s, StoreRunnable(s, id, row).after)
  {
    hide Inv, Sound, CandidatesStay, RunsStay, Grows, Kept, SessionsStay, ReceiptsStay, OneCurrent;
    var t := StoreRunnable(s, id, row).after;
    if t == s { Stays(s); } else {
      Reflexive(s);
      CurrentOf(s);
      if id !in s.runnables { RowKept(s.runnables, id, row); }
      AsideKeeps(s, t);
    }
  }

  lemma StoreReportKeeps(s: State, id: Id, row: ReportRow)
    requires Inv(s)
    ensures Sound(s, StoreReport(s, id, row).after)
  {
    hide Inv, Sound, CandidatesStay, RunsStay, Grows, Kept, SessionsStay, ReceiptsStay, OneCurrent;
    var t := StoreReport(s, id, row).after;
    if t == s { Stays(s); } else {
      Reflexive(s);
      CurrentOf(s);
      if id !in s.reports { RowKept(s.reports, id, row); }
      AsideKeeps(s, t);
    }
  }

  // ---- Publication ----

  /** A step that only adds to the published tables, no authored revision among the additions. */
  lemma PublishedAsideKeeps(s: State, pub: Tables)
    requires Inv(s) && Grows(s.pub, pub) && Consistent(pub)
    requires forall r <- pub.revisions :: pub.revisions[r].kind == Authoring ==> r in s.pub.revisions
    ensures Sound(s, s.(pub := pub))
  {
    hide Row, OnePerPlan, ClaimsIssued, EndedVerdicts, ReceiptsMatch, Consistent, OneCurrent, WorkflowsMove, LeasesFollow,
      CandidatesStay, RunsStay, SessionsStay, ReceiptsStay, Kept, HasOrigin;
    var t := s.(pub := pub);
    Reflexive(s);
    assert Later(s, t);
    forall j | j in t.workflows ensures Row(t, j) {
      AsideRow(s, t, j);
    }
  }

  lemma DeprecateScenarioKeeps(s: State, user: Id, scenario: Id)
    requires Inv(s)
    ensures Sound(s, DeprecateScenario(s, user, scenario).after)
  {
    hide Sound, Consistent, Grows, OnePerPlan, Rows, ClaimsIssued, EndedVerdicts, ReceiptsMatch, Authored, OneCurrent;
    var t := DeprecateScenario(s, user, scenario).after;
    if t == s { Stays(s); } else {
      DeprecateKeeps(s.pub, scenario);
      PublishedAsideKeeps(s, t.pub);
    }
  }

  lemma ImportReleaseKeeps(s: State, c: Id, scenario: Scenario, r: Id, revision: Revision)
    requires Inv(s)
    ensures Sound(s, ImportRelease(s, c, scenario, r, revision).after)
  {
    hide Sound, Consistent, Grows, OnePerPlan, Rows, ClaimsIssued, EndedVerdicts, ReceiptsMatch, Authored, OneCurrent;
    var t := ImportRelease(s, c, scenario, r, revision).after;
    if t == s { Stays(s); } else {
      PublishFirstKeeps(s.pub, c, scenario, r, revision);
      PublishedAsideKeeps(s, t.pub);
    }
  }

  /** Finalizing one candidate adds exactly one revision: the successor of the session's base, or a first one. */
  lemma FirstPublished(pub: Tables, session: Session, w: Workflow, c: Candidate, p: Publication, materialized: Id)
    requires Consistent(pub) && c.runnable.Some? && c.report.Some? && p.path == Path(p.slug, p.revision)
    requires session.target.None? && FinalizeTables(pub, session, w, c, p, materialized).Ok?
    ensures var u := FinalizeTables(pub, session, w, c, p, materialized).value;
            && Consistent(u) && Grows(pub, u) && u.revisions.Keys == pub.revisions.Keys + {p.revision}
            && u.revisions[p.revision] == PublishedRevision(w, c, p, None, p.slug, materialized)
            && p.scenario in u.scenarios && u.scenarios[p.scenario].sourceRef == w.session
  {
    hide Consistent, Grows, PublishedRevision;
    var first := Scenario(Authoring, w.session, Some(session.user), Active, p.revision, p.slug);
    var revision := PublishedRevision(w, c, p, None, p.slug, materialized);
    assert revision.scenario == p.scenario && revision.base == None && revision.state == ActiveRevision
           && revision.kind == Authoring && revision.path == p.path && revision.slug == p.slug by { PublishedFields(w, c, p, None, p.slug, materialized); }
    PublishFirstKeeps(pub, p.scenario, first, p.revision, revision);
  }

  lemma PublishedFields(w: Workflow, c: Candidate, p: Publication, base: Option<Id>, slug: Id, materialized: Id)
    requires c.runnable.Some? && c.report.Some?
    ensures var r := PublishedRevision(w, c, p, base, slug, materialized);
            && r.scenario == p.scenario && r.base == base && r.state == ActiveRevision && r.kind == Authoring && r.path == p.path && r.slug == slug
            && r.sourceRef == w.session && r.sourceRevision == w.plan && r.content == c.content
            && c.runnable == Some(r.runnable) && c.report == Some(r.report)
  {
  }

  lemma NextPublished(pub: Tables, session: Session, w: Workflow, c: Candidate, p: Publication, materialized: Id)
    requires Consistent(pub) && c.runnable.Some? && c.report.Some? && p.path == Path(p.slug, p.revision)
    requires session.target.Some? && FinalizeTables(pub, session, w, c, p, materialized).Ok?
    ensures var u := FinalizeTables(pub, session, w, c, p, materialized).value;
            && Consistent(u) && Grows(pub, u) && u.revisions.Keys == pub.revisions.Keys + {p.revision}
            && p.scenario == session.target.value.scenario
            && u.revisions[p.revision] == PublishedRevision(w, c, p, Some(session.target.value.base), p.slug, materialized)
  {
    hide Consistent, Grows, PublishedRevision;
    var target := session.target.value;
    var revision := PublishedRevision(w, c, p, Some(target.base), p.slug, materialized);
    PublishedFields(w, c, p, Some(target.base), p.slug, materialized);
    PublishNextKeeps(pub, target.scenario, p.revision, revision);
    PublishNextGrows(pub, target.scenario, p.revision, revision);
  }

  /** The tables grow by exactly the reserved revision, which carries what the candidate carries. */
  lemma TablesAfter(pub: Tables, session: Session, w: Workflow, c: Candidate, p: Publication, materialized: Id)
    requires Consistent(pub) && c.runnable.Some? && c.report.Some? && p.path == Path(p.slug, p.revision)
    requires FinalizeTables(pub, session, w, c, p, materialized).Ok?
    ensures var u := FinalizeTables(pub, session, w, c, p, materialized).value;
            && Consistent(u) && Grows(pub, u) && u.revisions.Keys == pub.revisions.Keys + {p.revision}
            && var r := u.revisions[p.revision];
               && r.scenario == p.scenario && r.kind == Authoring && r.sourceRef == w.session && r.sourceRevision == w.plan
               && r.content == c.content && r.path == p.path && c.runnable == Some(r.runnable) && c.report == Some(r.report)
               && (match session.target
                   case None => r.base == None && r.scenario in u.scenarios && u.scenarios[r.scenario].sourceRef == w.session
                   case Some(target) => r.scenario == target.scenario && r.base == Some(target.base))
  {
    hide Consistent, Grows, PublishedRevision, FinalizeTables;
    match session.target
    case None =>
      FirstPublished(pub, session, w, c, p, materialized);
      PublishedFields(w, c, p, None, p.slug, materialized);
    case Some(target) =>
      NextPublished(pub, session, w, c, p, materialized);
      PublishedFields(w, c, p, Some(target.base), p.slug, materialized);
  }

  lemma PublishedRow(s: State, workflow: Id, candidate: Id, content: Id, materialized: Id, now: Time)
    requires workflow in s.workflows && Row(s, workflow) && Consistent(s.pub)
    ensures Row(FinalizePublication(s, workflow, candidate, content, materialized, now).after, workflow)
  {
    hide Consistent, Grows, FinalizeTables, PublishedRevision;
    var t := FinalizePublication(s, workflow, candidate, content, materialized, now).after;
    if t != s {
      var w := s.workflows[workflow];
      var c := s.candidates[candidate];
      TablesAfter(s.pub, s.sessions[w.session], w, c, c.publication.value, materialized);
      assert Approved(t, workflow, candidate) && Built(t, candidate) && Passed(t, candidate);
    }
  }

  /** The new revision has its workflow as origin; the older ones keep theirs. */
  lemma PublishedAuthored(s: State, t: State, workflow: Id, r: Id)
    requires Authored(s.pub, s.workflows, s.candidates, s.sessions)
    requires CandidatesStay(s.candidates, t.candidates) && WorkflowsMove(s.workflows, t.workflows)
    requires SessionsStay(s.sessions, t.sessions) && Grows(s.pub, t.pub)
    requires r in t.pub.revisions && t.pub.revisions[r].kind == Authoring
    requires if r in s.pub.revisions then true
             else OriginOf(t.workflows, t.candidates, r, workflow) && FromSession(t.sessions, t.pub.scenarios, t.pub.revisions[r])
    ensures HasOrigin(t.workflows, t.candidates, r) && FromSession(t.sessions, t.pub.scenarios, t.pub.revisions[r])
  {
    if r in s.pub.revisions {
      hide CandidatesStay, WorkflowsMove, HasOrigin;
      OriginFrame(s, t, r);
    }
  }

  lemma PublishedTables(s: State, t: State, workflow: Id, candidate: Id, content: Id, materialized: Id, now: Time)
    requires Inv(s) && workflow in s.workflows && Row(s, workflow)
    requires t == FinalizePublication(s, workflow, candidate, content, materialized, now).after && t != s
    requires CandidatesStay(s.candidates, t.candidates) && WorkflowsMove(s.workflows, t.workflows)
    requires SessionsStay(s.sessions, t.sessions)
    ensures Consistent(t.pub) && Grows(s.pub, t.pub) && Authored(t.pub, t.workflows, t.candidates, t.sessions)
  {
    hide CandidatesStay, WorkflowsMove, SessionsStay, Consistent, Grows, HasOrigin, FinalizeTables, PublishedRevision,
      Approved, Built, Passed, Public, Rows, ClaimsIssued, EndedVerdicts, ReceiptsMatch, OneCurrent, OnePerPlan;
    var w := s.workflows[workflow];
    var c := s.candidates[candidate];
    TablesAfter(s.pub, s.sessions[w.session], w, c, c.publication.value, materialized);
    forall r | r in t.pub.revisions && t.pub.revisions[r].kind == Authoring
      ensures HasOrigin(t.workflows, t.candidates, r) && FromSession(t.sessions, t.pub.scenarios, t.pub.revisions[r])
    {
      PublishedAuthored(s, t, workflow, r);
    }
  }

  lemma FinalizePublicationKeeps(s: State, workflow: Id, candidate: Id, content: Id, materialized: Id, now: Time)
    requires Inv(s)
    ensures Sound(s, FinalizePublication(s, workflow, candidate, content, materialized, now).after)
  {
    hide CandidatesStay, RunsStay, Grows, Kept, SessionsStay, ReceiptsStay, OneCurrent, FinalizeTables,
      OnePerPlan, EndedVerdicts, ClaimsIssued, LeasesFollow, ReceiptsMatch, Consistent, Authored, WorkflowsMove,
      Approved, Built, Passed, Public;
    var t := FinalizePublication(s, workflow, candidate, content, materialized, now).after;
    if t == s { Stays(s); } else {
      var w := s.workflows[workflow];
      PartsOf(s, workflow);
      Reflexive(s);
      CandidateStays(s.candidates, candidate, t.candidates[candidate]);
      SessionStays(s.sessions, w.session, t.sessions[w.session]);
      WorkflowMoves(s.workflows, workflow, t.workflows[workflow]);
      ClaimsFrame(s, workflow, t.workflows[workflow]);
      PublishedTables(s, t, workflow, candidate, content, materialized, now);
      ReceiptsFrame(s, t);
      PublishedRow(s, workflow, candidate, content, materialized, now);
      PublishedRows(s, t, workflow);
      UniqueKept(s.workflows, workflow, t.workflows[workflow]);
    }
  }

  lemma PublishedRows(s: State, t: State, id: Id)
    requires Inv(s) && Later(s, t) && id in s.workflows && id in t.workflows
    requires t.workflows == s.workflows[id := t.workflows[id]] && Row(t, id)
    requires OtherCandidatesKept(s, t, s.workflows[id].candidate)
    ensures Rows(t)
  {
    hide Row, Later, OtherCandidatesKept;
    forall j | j in t.workflows ensures Row(t, j) {
      if j != id { OtherRow(s, t, id, j); }
    }
  }

  lemma UniqueKept(a: map<Id, Workflow>, id: Id, w: Workflow)
    requires OnePerPlan(a) && id in a && w.session == a[id].session && w.plan == a[id].plan
    ensures OnePerPlan(a[id := w])
  {
  }
}
