/** Which materialized directories must not be collected: what is published, and what either
    publisher is about to publish. */
module Retention {
  import opened Base
  import opened Scenarios
  import opened Texts
  import opened Publishers
  import G = Generation
  import GI = GenerationInvariants
  import GR = GenerationRuns
  import C = Catalog
  import CS = CatalogSteps

  // ---- The three sources ----

  function PublishedPaths(pub: Tables): set<Path> { set r | r in pub.revisions :: pub.revisions[r].path }

  /** A publishing workflow whose candidate has a recorded, unfinished publication. */
  predicate Intends(s: G.State, w: Id) {
    && G.InState(s.workflows, w, G.Publishing)
    && s.workflows[w].candidate.Some? && s.workflows[w].candidate.value in s.candidates
    && s.candidates[s.workflows[w].candidate.value].published.None?
    && s.candidates[s.workflows[w].candidate.value].publication.Some?
  }

  function IntentOf(s: G.State, w: Id): G.Publication
    requires Intends(s, w)
  {
    s.candidates[s.workflows[w].candidate.value].publication.value
  }

  function IntentPaths(s: G.State): set<Path> { set w | w in s.workflows && Intends(s, w) :: IntentOf(s, w).path }

  predicate Commits(c: C.Catalog, e: C.EntryKey) { e in c.commits && C.InState(c.releases, c.commits[e].release, C.Committing) }

  function CommitPath(commit: C.Commit): Path { Path(commit.slug, commit.revision) }

  function CommitPaths(c: C.Catalog): set<Path> { set e | e in c.commits && Commits(c, e) :: CommitPath(c.commits[e]) }

  function Retained(s: Store): set<Path> { PublishedPaths(s.catalog.pub) + IntentPaths(s.generation) + CommitPaths(s.catalog) }

  // ---- The query ----

  /** How identities are written: never alike, and without a slash. */
  ghost predicate Names(name: Id -> string) {
    (forall i: Id :: '/' !in name(i)) && forall a: Id, b: Id :: name(a) == name(b) ==> a == b
  }

  /** A directory's path as text. */
  function Text(name: Id -> string, p: Path): string { name(p.slug) + "/" + name(p.revision) }

  lemma FirstSlash(a: string, b: string, c: string, d: string)
    requires '/' !in a && '/' !in c && a + "/" + b == c + "/" + d
    ensures a == c && b == d
  {
    var s := a + "/" + b;
    assert s[|a|] == '/' && s[|c|] == '/';
    assert forall k | 0 <= k < |a| :: s[k] == a[k] && a[k] in a;
    assert forall k | 0 <= k < |c| :: s[k] == c[k] && c[k] in c;
    assert |c| >= |a| && |a| >= |c|;
    assert a == s[..|a|] && c == s[..|c|] && b == s[|a| + 1..] && d == s[|c| + 1..];
  }

  lemma TextsDiffer(name: Id -> string, p: Path, q: Path)
    requires Names(name) && Text(name, p) == Text(name, q)
    ensures p == q
  {
    FirstSlash(name(p.slug), name(p.revision), name(q.slug), name(q.revision));
  }

  /** In the order of the paths' texts, none twice. */
  predicate Ascending(name: Id -> string, paths: seq<Path>) {
    forall i, j | 0 <= i < j < |paths| :: Less(Text(name, paths[i]), Text(name, paths[j]))
  }

  /** A row's path is the one its slug and revision name. */
  predicate RowsAreValid(s: Store) {
    && (forall r <- s.catalog.pub.revisions :: s.catalog.pub.revisions[r].path == Path(s.catalog.pub.revisions[r].slug, r))
    && (forall w <- s.generation.workflows :: Intends(s.generation, w) ==>
          IntentOf(s.generation, w).path == Path(IntentOf(s.generation, w).slug, IntentOf(s.generation, w).revision))
  }

  method Place(name: Id -> string, paths: seq<Path>, p: Path) returns (more: seq<Path>)
    requires Names(name) && Ascending(name, paths) && p !in paths
    ensures Ascending(name, more) && forall q :: q in more <==> q in paths || q == p
  {
    hide Less, Text, Names;
    var i := 0;
    while i < |paths| && Less(Text(name, paths[i]), Text(name, p))
      invariant 0 <= i <= |paths|
      invariant forall k | 0 <= k < i :: Less(Text(name, paths[k]), Text(name, p))
    {
      i := i + 1;
    }
    forall k | i <= k < |paths| ensures Less(Text(name, p), Text(name, paths[k])) {
      if Text(name, paths[i]) == Text(name, p) { TextsDiffer(name, paths[i], p); }
      LessTotal(Text(name, p), Text(name, paths[i]));
      if i < k { LessTransitive(Text(name, p), Text(name, paths[i]), Text(name, paths[k])); }
    }
    assert paths == paths[..i] + paths[i..];
    more := paths[..i] + [p] + paths[i..];
  }

  method Sort(name: Id -> string, paths: set<Path>) returns (sorted: seq<Path>)
    requires Names(name)
    ensures Ascending(name, sorted) && forall q :: q in sorted <==> q in paths
  {
    hide Names, Less, Text;
    sorted := [];
    var rest := paths;
    while rest != {}
      invariant rest <= paths && Ascending(name, sorted)
      invariant forall q :: q in sorted <==> q in paths && q !in rest
      decreases |rest|
    {
      var p :| p in rest;
      sorted := Place(name, sorted, p);
      rest := rest - {p};
    }
  }

  method PublishedRows(pub: Tables) returns (ok: bool, paths: set<Path>)
    ensures ok <==> forall r <- pub.revisions :: pub.revisions[r].path == Path(pub.revisions[r].slug, r)
    ensures ok ==> paths == PublishedPaths(pub)
  {
    paths := {};
    var rest := pub.revisions.Keys;
    while rest != {}
      invariant rest <= pub.revisions.Keys
      invariant forall r <- pub.revisions :: r in rest || pub.revisions[r].path == Path(pub.revisions[r].slug, r)
      invariant paths == set r | r in pub.revisions && r !in rest :: pub.revisions[r].path
      decreases |rest|
    {
      var r :| r in rest;
      if pub.revisions[r].path != Path(pub.revisions[r].slug, r) { return false, paths; }
      paths := paths + {pub.revisions[r].path};
      rest := rest - {r};
    }
    return true, paths;
  }

  method IntentRows(s: G.State) returns (ok: bool, paths: set<Path>)
    ensures ok <==> forall w <- s.workflows :: Intends(s, w) ==> IntentOf(s, w).path == Path(IntentOf(s, w).slug, IntentOf(s, w).revision)
    ensures ok ==> paths == IntentPaths(s)
  {
    hide Intends, IntentOf;
    paths := {};
    var rest: set<Id> := set w | w in s.workflows && Intends(s, w);
    while rest != {}
      invariant forall w <- rest :: w in s.workflows && Intends(s, w)
      invariant forall w <- s.workflows :: Intends(s, w) ==>
                  w in rest || IntentOf(s, w).path == Path(IntentOf(s, w).slug, IntentOf(s, w).revision)
      invariant paths == set w | w in s.workflows && Intends(s, w) && w !in rest :: IntentOf(s, w).path
      decreases |rest|
    {
      var w :| w in rest;
      var intent := IntentOf(s, w);
      if intent.path != Path(intent.slug, intent.revision) { return false, paths; }
      paths := paths + {intent.path};
      rest := rest - {w};
    }
    return true, paths;
  }

  /** Refuses the whole answer over one invalid row, rather than leave a path out of it. */
  method RetainedMaterializationPaths(s: Store, name: Id -> string) returns (r: Outcome<seq<Path>>)
    requires Names(name)
    ensures r.Ok? <==> RowsAreValid(s)
    ensures r.Ok? ==> Ascending(name, r.value) && forall p :: p in r.value <==> p in Retained(s)
  {
    hide Intends, IntentOf, IntentPaths, PublishedPaths, CommitPaths, Names, Ascending;
    var ok, published := PublishedRows(s.catalog.pub);
    if !ok { return Err(Invalid); }
    var valid, intended := IntentRows(s.generation);
    if !valid { return Err(Invalid); }
    var paths := Sort(name, published + intended + CommitPaths(s.catalog));
    return Ok(paths);
  }

  // ---- Nothing published, and nothing under way, is ever left out ----

  /** In every run the query answers. */
  lemma AlwaysAnswers(ops: seq<Op>)
    ensures RowsAreValid(After(Empty, ops))
  {
    hide After, GI.Inv, CS.Inv, Consistent, Intends, IntentOf, RowsAreValid;
    EmptyInv();
    AfterSound(Empty, ops);
    ValidNow(After(Empty, ops));
  }

  lemma ValidNow(s: Store)
    requires Inv(s)
    ensures RowsAreValid(s)
  {
    hide G.OnePerPlan, GI.EndedVerdicts, GI.ClaimsIssued, GI.ReceiptsMatch, GI.Authored, G.OneCurrent, GI.Rows, CS.Inv, HasLineage, UniqueKeys, Intends, IntentOf;
    forall w | w in s.generation.workflows && Intends(s.generation, w)
      ensures IntentOf(s.generation, w).path == Path(IntentOf(s.generation, w).slug, IntentOf(s.generation, w).revision)
    {
      ValidIntent(s.generation, w);
    }
    assert NoOrphans(s.generation.pub);
  }

  lemma ValidIntent(s: G.State, w: Id)
    requires GI.Rows(s) && Intends(s, w)
    ensures IntentOf(s, w).path == Path(IntentOf(s, w).slug, IntentOf(s, w).revision)
  {
    hide GI.CandidateOf, GI.Approved, GI.Built, GI.Passed, GI.Public, GI.JudgeRunOf;
    assert GI.Row(s, w);
  }

  lemma InRetained(s: Store, r: Id)
    requires r in s.catalog.pub.revisions
    ensures s.catalog.pub.revisions[r].path in Retained(s)
  {
  }

  /** The directory of a published revision is retained forever. */
  lemma PublishedIsRetained(ops: seq<Op>, more: seq<Op>, r: Id)
    requires r in After(Empty, ops).catalog.pub.revisions
    ensures After(Empty, ops).catalog.pub.revisions[r].path in Retained(After(After(Empty, ops), more))
  {
    hide After, Inv, Retained;
    EmptyInv();
    AfterSound(Empty, ops);
    AfterSound(After(Empty, ops), more);
    InRetained(After(After(Empty, ops), more), r);
  }

  ghost predicate UnderWay(s: G.State, w: Id) {
    w in s.workflows && s.workflows[w].state in {G.Publishing, G.Published}
  }

  /** From the moment its publication is recorded, through finalization and after, a workflow's directory is retained. */
  lemma IntentIsRetained(ops: seq<Op>, w: Id)
    requires UnderWay(After(Empty, ops).generation, w)
    ensures var s := After(Empty, ops).generation;
            && s.workflows[w].candidate.Some? && s.workflows[w].candidate.value in s.candidates
            && s.candidates[s.workflows[w].candidate.value].publication.Some?
            && s.candidates[s.workflows[w].candidate.value].publication.value.path in Retained(After(Empty, ops))
  {
    hide After, GI.Approved, GI.Built, GI.Passed, Consistent, CS.Inv;
    EmptyInv();
    AfterSound(Empty, ops);
    var s := After(Empty, ops);
    assert GI.Row(s.generation, w);
    if s.generation.workflows[w].state == G.Published {
      InRetained(s, s.generation.candidates[s.generation.workflows[w].candidate.value].publication.value.revision);
    } else {
      assert Intends(s.generation, w);
      assert IntentOf(s.generation, w).path in IntentPaths(s.generation);
    }
  }

  /** The directories of a release are retained from the moment its commits are recorded, and ever after once it is ready. */
  lemma CommitIsRetained(ops: seq<Op>, e: C.EntryKey)
    requires var c := After(Empty, ops).catalog;
             e in c.commits && (C.InState(c.releases, e.release, C.Committing) || C.InState(c.releases, e.release, C.Ready))
    ensures CommitPath(After(Empty, ops).catalog.commits[e]) in Retained(After(Empty, ops))
  {
    hide After, GI.Inv, CS.EntriesOk, CS.Placed, CS.UniqueRefs, CS.UniqueCommits, CS.Covered, CS.OneReady, Consistent;
    EmptyInv();
    AfterSound(Empty, ops);
    var s := After(Empty, ops);
    assert CS.CommitOk(s.catalog.releases, s.catalog.entries, e, s.catalog.commits[e]);
    if C.InState(s.catalog.releases, e.release, C.Ready) {
      assert CS.PublishedAs(s.catalog.pub, s.catalog.commits[e], s.catalog.entries[e]);
      InRetained(s, s.catalog.commits[e].revision);
    } else {
      assert Commits(s.catalog, e);
      assert CommitPath(s.catalog.commits[e]) in CommitPaths(s.catalog);
    }
  }

  /** In every run a directory is retained exactly when a published revision is in it, when a publishing workflow has
      reserved it, or when a commit of a committing release has it: as soon as none of them does, it may go. */
  lemma RetainedExactly(ops: seq<Op>, p: Path)
    ensures var s := After(Empty, ops);
            var g, c := s.generation, s.catalog;
            p in Retained(s)
            <==> || (exists r :: r in c.pub.revisions && c.pub.revisions[r].path == p)
                 || (exists w, k :: w in g.workflows && g.workflows[w].state == G.Publishing && g.workflows[w].candidate == Some(k)
                      && k in g.candidates && g.candidates[k].publication.Some? && g.candidates[k].publication.value.path == p)
                 || (exists e :: e in c.commits && e.release in c.releases && c.releases[e.release].state == C.Committing
                      && p == Path(c.commits[e].slug, c.commits[e].revision))
  {
    hide After, Inv, Retained;
    EmptyInv();
    AfterSound(Empty, ops);
    var s := After(Empty, ops);
    RetainedIs(s, p);
    IntentPathsAre(s, p);
    CommitPathsAre(s, p);
    assert p in PublishedPaths(s.catalog.pub) <==> exists r :: r in s.catalog.pub.revisions && s.catalog.pub.revisions[r].path == p;
  }

  lemma RetainedIs(s: Store, p: Path)
    ensures p in Retained(s) <==> p in PublishedPaths(s.catalog.pub) || p in IntentPaths(s.generation) || p in CommitPaths(s.catalog)
  {
  }

  lemma IntentPathsAre(s: Store, p: Path)
    requires Inv(s)
    ensures var g := s.generation;
            p in IntentPaths(g)
            <==> exists w, k :: w in g.workflows && g.workflows[w].state == G.Publishing && g.workflows[w].candidate == Some(k)
                   && k in g.candidates && g.candidates[k].publication.Some? && g.candidates[k].publication.value.path == p
  {
    hide GI.Approved, GI.Built, GI.Passed, Consistent, CS.Inv;
    var g := s.generation;
    forall w | w in g.workflows && g.workflows[w].state == G.Publishing ensures Intends(g, w) {
      assert GI.Row(g, w);
    }
    if p in IntentPaths(g) {
      var w :| w in g.workflows && Intends(g, w) && IntentOf(g, w).path == p;
      var k := g.workflows[w].candidate.value;
      assert k in g.candidates && g.candidates[k].publication.value.path == p;
    }
  }

  lemma CommitPathsAre(s: Store, p: Path)
    requires Inv(s)
    ensures var c := s.catalog;
            p in CommitPaths(c)
            <==> exists e :: e in c.commits && e.release in c.releases && c.releases[e.release].state == C.Committing
                   && p == Path(c.commits[e].slug, c.commits[e].revision)
  {
    hide GI.Inv, CS.EntriesOk, CS.Placed, CS.UniqueRefs, CS.UniqueCommits, CS.Covered, CS.OneReady, Consistent;
    var c := s.catalog;
    forall e | e in c.commits ensures c.commits[e].release == e.release {
      assert CS.CommitOk(c.releases, c.entries, e, c.commits[e]);
    }
    if p in CommitPaths(c) {
      var e :| e in c.commits && Commits(c, e) && CommitPath(c.commits[e]) == p;
      assert p == Path(c.commits[e].slug, c.commits[e].revision);
    }
    if e :| e in c.commits && e.release in c.releases && c.releases[e.release].state == C.Committing && p == Path(c.commits[e].slug, c.commits[e].revision) {
      assert Commits(c, e);
    }
  }

  // ---- An intent, once recorded, is not exchanged for another ----

  ghost predicate SameIntent(s: G.State, t: G.State, w: Id) {
    UnderWay(s, w) && UnderWay(t, w) ==>
      && t.workflows[w].candidate == s.workflows[w].candidate
      && forall c :: s.workflows[w].candidate == Some(c) && c in s.candidates && c in t.candidates ==>
           t.candidates[c].publication == s.candidates[c].publication
  }

  /** Only the confirmation of a review records a publication; nothing replaces one. */
  ghost predicate SamePublications(a: map<Id, G.Candidate>, b: map<Id, G.Candidate>) {
    forall c <- a :: c in b ==> b[c].publication == a[c].publication
  }

  ghost predicate SameCandidate(a: map<Id, G.Workflow>, b: map<Id, G.Workflow>, w: Id) {
    w in a && w in b && a[w].state in {G.Publishing, G.Published} ==> b[w].candidate == a[w].candidate
  }

  lemma WriterPublications(s: G.State, op: GR.WriterOp, w: Id)
    ensures var t := GR.NextWriter(s, op); SamePublications(s.candidates, t.candidates) && SameCandidate(s.workflows, t.workflows, w)
  {
    hide GR.NextWriter;
    GR.WriterWrites(s, op);
  }

  /** No publication is replaced, and workflow w keeps its candidate once it has a publication. */
  ghost predicate SettledAlike(s: G.State, t: G.State, w: Id) {
    SamePublications(s.candidates, t.candidates) && SameCandidate(s.workflows, t.workflows, w)
  }

  lemma ClaimWorkflowSettles(s: G.State, id: Id, owner: Id, ttl: Time, now: Time, w: Id)
    ensures SettledAlike(s, G.ClaimWorkflow(s, id, owner, ttl, now).after, w)
  {
  }

  lemma RenewLeaseSettles(s: G.State, claim: G.Claim, ttl: Time, now: Time, w: Id)
    ensures SettledAlike(s, G.RenewLease(s, claim, ttl, now).after, w)
  {
  }

  lemma StartAgentRunSettles(s: G.State, claim: G.Claim, run: Id, deadline: Time, now: Time, w: Id)
    ensures SettledAlike(s, G.StartAgentRun(s, claim, run, deadline, now).after, w)
  {
  }

  lemma RetryAgentRunSettles(s: G.State, claim: G.Claim, run: Id, message: string, now: Time, w: Id)
    ensures SettledAlike(s, G.RetryAgentRun(s, claim, run, message, now).after, w)
  {
  }

  lemma FinalizeJudgementSettles(s: G.State, claim: G.Claim, run: Id, approved: bool, feedback: string, now: Time, w: Id)
    ensures SettledAlike(s, G.FinalizeJudgement(s, claim, run, approved, feedback, now).after, w)
  {
  }

  lemma ReportArtifactFailureSettles(s: G.State, claim: G.Claim, failure: G.Failure, now: Time, w: Id)
    ensures SettledAlike(s, G.ReportArtifactFailure(s, claim, failure, now).after, w)
  {
  }

  lemma InterruptJudgeRunsSettles(s: G.State, w: Id)
    ensures SettledAlike(s, G.InterruptJudgeRuns(s).after, w)
  {
  }

  lemma ReleaseJudgingSettles(s: G.State, now: Time, w: Id)
    ensures SettledAlike(s, G.ReleaseJudging(s, now).after, w)
  {
  }

  lemma FailRunnableSettles(s: G.State, workflow: Id, message: string, w: Id)
    ensures SettledAlike(s, G.FailRunnable(s, workflow, message).after, w)
  {
  }

  lemma MarkMaterializedSettles(s: G.State, workflow: Id, ref: RunnableRef, now: Time, w: Id)
    ensures SettledAlike(s, G.MarkMaterialized(s, workflow, ref, now).after, w)
  {
  }

  lemma MarkVerifiedSettles(s: G.State, workflow: Id, ref: ReportRef, now: Time, w: Id)
    ensures SettledAlike(s, G.MarkVerified(s, workflow, ref, now).after, w)
  {
  }

  lemma RecordFinalizerFailureSettles(s: G.State, workflow: Id, candidate: Id, d: G.Diagnostic, w: Id)
    ensures SettledAlike(s, G.RecordFinalizerFailure(s, workflow, candidate, d).after, w)
  {
  }

  lemma FinalizePublicationSettles(s: G.State, workflow: Id, candidate: Id, content: Id, materialized: Id, now: Time, w: Id)
    ensures SettledAlike(s, G.FinalizePublication(s, workflow, candidate, content, materialized, now).after, w)
  {
  }

  lemma AgentPublications(s: G.State, op: GR.AgentOp, w: Id)
    ensures SettledAlike(s, GR.NextAgent(s, op), w)
  {
    hide SettledAlike, G.ClaimWorkflow, G.RenewLease, G.StartAgentRun, G.RetryAgentRun, G.FinalizeJudgement, G.ReportArtifactFailure, G.InterruptJudgeRuns, G.ReleaseJudging, G.FailRunnable, G.MarkMaterialized, G.MarkVerified, G.RecordFinalizerFailure, G.FinalizePublication;
    NothingSettles(s, w);
    match op {
      case Claims(id, owner, ttl, now) => if owner !in s.issued { ClaimWorkflowSettles(s, id, owner, ttl, now, w); }
      case Renews(claim, ttl, now) => RenewLeaseSettles(s, claim, ttl, now, w);
      case StartsRun(claim, run, deadline, now) => StartAgentRunSettles(s, claim, run, deadline, now, w);
      case RetriesRun(claim, run, message, now) => RetryAgentRunSettles(s, claim, run, message, now, w);
      case Judges(claim, run, approved, feedback, now) => FinalizeJudgementSettles(s, claim, run, approved, feedback, now, w);
      case Rejects(claim, failure, now) => ReportArtifactFailureSettles(s, claim, failure, now, w);
      case StopsRuns => InterruptJudgeRunsSettles(s, w);
      case Releases(now) => ReleaseJudgingSettles(s, now, w);
      case GivesUp(workflow, message) => FailRunnableSettles(s, workflow, message, w);
      case Materializes(workflow, ref, now) => MarkMaterializedSettles(s, workflow, ref, now, w);
      case Verifies(workflow, ref, now) => MarkVerifiedSettles(s, workflow, ref, now, w);
      case FailsToPublish(workflow, candidate, d) => RecordFinalizerFailureSettles(s, workflow, candidate, d, w);
      case Publishes(workflow, candidate, content, materialized, now) => FinalizePublicationSettles(s, workflow, candidate, content, materialized, now, w);
    }
  }

  lemma NothingSettles(s: G.State, w: Id)
    ensures SettledAlike(s, s, w)
  {
  }

  lemma AuthorPublications(s: G.State, op: GR.AuthorOp, w: Id)
    requires !op.Confirms?
    ensures var t := GR.NextAuthor(s, op); SamePublications(s.candidates, t.candidates) && SameCandidate(s.workflows, t.workflows, w)
  {
    hide G.MatchesCandidate, G.ReportOn, G.PreparePublication;
  }

  lemma OneWorkflowPerCandidate(s: G.State, v: Id, w: Id, c: Id)
    requires GI.Rows(s) && G.OnePerPlan(s.workflows) && v in s.workflows && w in s.workflows
    requires s.workflows[v].candidate == Some(c) && s.workflows[w].candidate == Some(c)
    ensures v == w
  {
    hide GI.Progress, GI.JudgeRunOf;
    assert GI.Row(s, v) && GI.Row(s, w);
  }

  /** A confirmation changes one reviewed workflow, which keeps its candidate, and that candidate. */
  ghost predicate Confirmed(s: G.State, t: G.State, workflow: Id, candidate: Id) {
    && G.InState(s.workflows, workflow, G.NeedsAuthorReview) && s.workflows[workflow].candidate == Some(candidate)
    && workflow in t.workflows && t.workflows == s.workflows[workflow := t.workflows[workflow]]
    && candidate in t.candidates && t.candidates == s.candidates[candidate := t.candidates[candidate]]
  }

  lemma ConfirmationTouches(s: G.State, op: GR.AuthorOp)
    requires op.Confirms?
    ensures var t := GR.NextAuthor(s, op); t == s || Confirmed(s, t, op.workflow, op.candidate)
  {
    hide G.ReportOn, G.PreparePublication, G.Owns;
  }

  lemma ConfirmedOnly(s: G.State, t: G.State, workflow: Id, candidate: Id, w: Id)
    requires GI.Rows(s) && G.OnePerPlan(s.workflows) && Confirmed(s, t, workflow, candidate)
    ensures SameIntent(s, t, w)
  {
    hide GI.Row, G.OnePerPlan, GI.Rows;
    if UnderWay(s, w) && s.workflows[w].candidate == Some(candidate) { OneWorkflowPerCandidate(s, workflow, w, candidate); }
  }

  lemma ConfirmPublications(s: G.State, op: GR.AuthorOp, w: Id)
    requires op.Confirms? && GI.Rows(s) && G.OnePerPlan(s.workflows)
    ensures SameIntent(s, GR.NextAuthor(s, op), w)
  {
    hide GR.NextAuthor, Confirmed, GI.Row, G.OnePerPlan, GI.Rows;
    ConfirmationTouches(s, op);
    var t := GR.NextAuthor(s, op);
    if t != s { ConfirmedOnly(s, t, op.workflow, op.candidate, w); }
  }

  lemma IntentNext(s: G.State, g: GR.Op, w: Id)
    requires GI.Inv(s)
    ensures SameIntent(s, GR.Next(s, g), w)
  {
    hide GR.NextWriter, GR.NextAgent, GR.NextAuthor, GR.NextSpace, GI.Row, G.OnePerPlan, GI.EndedVerdicts, GI.ClaimsIssued, GI.ReceiptsMatch,
      Consistent, GI.Authored, G.OneCurrent;
    match g {
      case Writer(op) => WriterPublications(s, op, w);
      case Agent(op) => AgentPublications(s, op, w);
      case Author(op) => if op.Confirms? { ConfirmPublications(s, op, w); } else { AuthorPublications(s, op, w); }
      case Space(op) => SpacePublications(s, op);
    }
  }

  lemma SpacePublications(s: G.State, op: GR.SpaceOp)
    ensures GR.NextSpace(s, op).candidates == s.candidates && GR.NextSpace(s, op).workflows == s.workflows
  {
    hide GR.NextSpace;
    GR.SpaceWrites(s, op);
  }

  lemma IntentStep(s: Store, op: Op, w: Id)
    requires Inv(s)
    ensures SameIntent(s.generation, Next(s, op).generation, w)
  {
    hide GR.Next, C.Next, GI.Inv, CS.Inv, Consistent;
    if op.OfGeneration? { IntentNext(s.generation, op.g, w); }
  }

  ghost predicate Decided(s: G.State, w: Id) {
    w in s.workflows && s.workflows[w].state in {G.Publishing, G.Published, G.Failed, G.Cancelled}
  }

  lemma DecidedStep(s: G.State, t: G.State, w: Id)
    requires GI.WorkflowsMove(s.workflows, t.workflows) && GI.CandidatesStay(s.candidates, t.candidates) && Decided(s, w)
    ensures Decided(t, w) && (UnderWay(t, w) ==> UnderWay(s, w))
    ensures forall c <- s.candidates :: c in t.candidates
  {
  }

  lemma DecidedNext(s: Store, op: Op, w: Id)
    requires Inv(s) && Decided(s.generation, w)
    ensures var t := Next(s, op).generation;
            && Decided(t, w) && (UnderWay(t, w) ==> UnderWay(s.generation, w))
            && forall c <- s.generation.candidates :: c in t.candidates
  {
    hide Next, Inv, GI.Inv, GI.WorkflowsMove, GI.CandidatesStay, GI.SessionsStay, GI.RunsStay, GI.ReceiptsStay, GI.Kept, GI.LeasesFollow, Grows, CS.ReleasesMove;
    NextSound(s, op);
    DecidedStep(s.generation, Next(s, op).generation, w);
  }

  /** A publication under way is the same one to its end: the directory retained for it is the one finally published. */
  lemma {:induction false} IntentStays(s: Store, more: seq<Op>, w: Id)
    requires Inv(s) && UnderWay(s.generation, w)
    ensures var t := After(s, more).generation;
            && Decided(t, w) && SameIntent(s.generation, t, w)
            && forall c <- s.generation.candidates :: c in t.candidates
  {
    hide Next, Inv;
    if more != [] {
      var init, op := more[..|more| - 1], more[|more| - 1];
      IntentStays(s, init, w);
      AfterSound(s, init);
      DecidedNext(After(s, init), op, w);
      IntentStep(After(s, init), op, w);
    }
  }

  // ---- A commit keeps its identities ----

  lemma CommitStep(c: C.Catalog, op: C.Op)
    ensures forall e <- c.commits :: e in C.Next(c, op).commits && CommitPath(C.Next(c, op).commits[e]) == CommitPath(c.commits[e])
                                     && C.Next(c, op).commits[e].scenario == c.commits[e].scenario
  {
    hide C.PublishAll, C.IsListing, C.AddEntries, C.DistinctFound, C.Prepares, C.SameForReleases, C.AddCommits, Consistent;
    if op.DoPrepare? && C.AddCommits(c.commits, op.r, op.intents).Some? { KeptByAdding(c.commits, op.r, op.intents); }
  }

  lemma {:induction false} KeptByAdding(commits: map<C.EntryKey, C.Commit>, r: Id, intents: seq<C.Intent>)
    requires C.AddCommits(commits, r, intents).Some?
    ensures forall e <- commits :: e in C.AddCommits(commits, r, intents).value && C.AddCommits(commits, r, intents).value[e] == commits[e]
  {
    if intents != [] { KeptByAdding(commits, r, intents[..|intents| - 1]); }
  }

  /** The directory a release reserved for an entry is the one it publishes there. */
  lemma {:induction false} CommitStays(s: Store, more: seq<Op>, e: C.EntryKey)
    requires e in s.catalog.commits
    ensures var t := After(s, more).catalog;
            e in t.commits && CommitPath(t.commits[e]) == CommitPath(s.catalog.commits[e]) && t.commits[e].scenario == s.catalog.commits[e].scenario
  {
    hide C.Next, GR.Next;
    if more != [] {
      CommitStays(s, more[..|more| - 1], e);
      var before, op := After(s, more[..|more| - 1]), more[|more| - 1];
      if op.OfCatalog? { CommitStep(before.catalog, op.c); }
    }
  }
}
