/** The two publishers side by side: generation workflows and catalog releases write the same
    published-scenario tables. */
module Publishers {
  import opened Base
  import opened Scenarios
  import G = Generation
  import GI = GenerationInvariants
  import GS = GenerationSteps
  import GP = GenerationPublication
  import GR = GenerationRuns
  import C = Catalog
  import CS = CatalogSteps
  import CP = CatalogPublication

  datatype Store = Store(generation: G.State, catalog: C.Catalog)

  const Empty := Store(G.Empty, C.Empty)

  /** A transaction of either publisher; the other sees the tables it leaves. */
  datatype Op = OfGeneration(g: GR.Op) | OfCatalog(c: C.Op)

  /** Each machine speaks of the other's publications in a step of its own; here the other is really there. */
  predicate Own(op: Op) {
    match op
    case OfGeneration(g) => !(g.Writer? && g.w.AddRelease?)
    case OfCatalog(c) => !c.DoAuthorPublishes?
  }

  ghost function Next(s: Store, op: Op): Store {
    if !Own(op) then s
    else match op
      case OfGeneration(g) =>
        var after := GR.Next(s.generation, g);
        Store(after, s.catalog.(pub := after.pub))
      case OfCatalog(c) =>
        var after := C.Next(s.catalog, c);
        Store(s.generation.(pub := after.pub), after)
  }

  ghost function After(s: Store, ops: seq<Op>): Store {
    if ops == [] then s else Next(After(s, ops[..|ops| - 1]), ops[|ops| - 1])
  }

  ghost predicate Inv(s: Store) { GI.Inv(s.generation) && CS.Inv(s.catalog) && s.generation.pub == s.catalog.pub }

  ghost predicate Sound(s: Store, t: Store) {
    && Inv(t) && Grows(s.catalog.pub, t.catalog.pub)
    && GI.Sound(s.generation, t.generation) && CS.ReleasesMove(s.catalog.releases, t.catalog.releases)
  }

  // ---- What one publisher does to the other's rows ----

  lemma FinalizedForReleases(pub: Tables, session: G.Session, w: G.Workflow, c: G.Candidate, p: G.Publication, materialized: Id)
    requires Consistent(pub) && c.runnable.Some? && c.report.Some?
    requires G.FinalizeTables(pub, session, w, c, p, materialized).Ok?
    ensures C.SameForReleases(pub, G.FinalizeTables(pub, session, w, c, p, materialized).value)
  {
    hide HasLineage, UniqueKeys;
  }

  lemma SameTables(pub: Tables)
    ensures C.SameForReleases(pub, pub)
  {
  }

  lemma WriterForReleases(s: G.State, op: GR.WriterOp)
    requires !op.AddRelease?
    ensures C.SameForReleases(s.pub, GR.NextWriter(s, op).pub)
  {
    hide C.SameForReleases;
    SameTables(s.pub);
    if op.HideScenario? {
      DeprecatedForReleases(s, op.user, op.scenario);
    } else {
      assert GR.NextWriter(s, op).pub == s.pub;
    }
  }

  lemma DeprecatedForReleases(s: G.State, user: Id, scenario: Id)
    ensures C.SameForReleases(s.pub, G.DeprecateScenario(s, user, scenario).after.pub)
  {
    hide C.SameForReleases;
    SameTables(s.pub);
    if scenario in s.pub.scenarios && s.pub.scenarios[scenario].kind == Authoring { HiddenForReleases(s.pub, scenario); }
  }

  lemma HiddenForReleases(pub: Tables, scenario: Id)
    requires scenario in pub.scenarios && pub.scenarios[scenario].kind == Authoring
    ensures C.SameForReleases(pub, Deprecate(pub, scenario))
  {
  }

  lemma SamePubAgent(s: G.State, op: GR.AgentOp)
    requires !op.Publishes?
    ensures GR.NextAgent(s, op).pub == s.pub
  {
    hide G.Passes, G.Claimable, G.MatchesCandidate, G.ReportOn;
  }

  lemma SamePubAuthor(s: G.State, op: GR.AuthorOp)
    ensures GR.NextAuthor(s, op).pub == s.pub
  {
  }

  lemma SamePubSpace(s: G.State, op: GR.SpaceOp)
    ensures GR.NextSpace(s, op).pub == s.pub
  {
    hide GR.NextSpace;
    GR.SpaceWrites(s, op);
  }

  /** A generation workflow never touches a released scenario. */
  lemma GenerationForReleases(s: G.State, g: GR.Op)
    requires Consistent(s.pub) && !(g.Writer? && g.w.AddRelease?)
    ensures C.SameForReleases(s.pub, GR.Next(s, g).pub)
  {
    hide GR.NextWriter, GR.NextAuthor, GR.NextSpace, Consistent, C.SameForReleases, G.FinalizeTables;
    SameTables(s.pub);
    match g {
      case Writer(w) => WriterForReleases(s, w);
      case Agent(a) =>
        if a.Publishes? { PublishesForReleases(s, a.workflow, a.candidate, a.content, a.materialized, a.now); }
        else { hide GR.NextAgent; SamePubAgent(s, a); }
      case Author(u) => SamePubAuthor(s, u);
      case Space(p) => SamePubSpace(s, p);
    }
  }

  lemma PublishesForReleases(s: G.State, workflow: Id, candidate: Id, content: Id, materialized: Id, now: Time)
    requires Consistent(s.pub)
    ensures C.SameForReleases(s.pub, G.FinalizePublication(s, workflow, candidate, content, materialized, now).after.pub)
  {
    hide Consistent, C.SameForReleases, G.FinalizeTables;
    SameTables(s.pub);
    if workflow in s.workflows && candidate in s.candidates && s.workflows[workflow].session in s.sessions {
      var w, c := s.workflows[workflow], s.candidates[candidate];
      if c.publication.Some? && c.runnable.Some? && c.report.Some?
         && G.FinalizeTables(s.pub, s.sessions[w.session], w, c, c.publication.value, materialized).Ok? {
        FinalizedForReleases(s.pub, s.sessions[w.session], w, c, c.publication.value, materialized);
      }
    }
  }

  /** A catalog transaction only adds to the published tables, and adds no authored revision. */
  ghost predicate AddsReleases(pub: Tables, next: Tables) {
    && Grows(pub, next)
    && forall r <- next.revisions :: next.revisions[r].kind == Authoring ==> r in pub.revisions
  }

  lemma Unchanged(pub: Tables)
    ensures AddsReleases(pub, pub)
  {
  }

  lemma PublishedAreReleases(c: C.Catalog, r: Id, order: seq<C.EntryKey>)
    requires Consistent(c.pub) && c.pub.scenarios == map[] && C.PublishAll(c, r, order).Some?
    ensures AddsReleases(c.pub, C.PublishAll(c, r, order).value)
  {
    hide C.PublishAll, Consistent;
    CP.AllPublished(c, r, order);
    var pub := C.PublishAll(c, r, order).value;
    EmptyTablesToo(c.pub);
    forall k | k in pub.revisions ensures pub.revisions[k].kind == Release {
      var e :| e in CP.Done(order) && e in c.commits && c.commits[e].revision == k;
      assert CS.PublishedAs(pub, c.commits[e], c.entries[e]);
    }
  }

  lemma EmptyTablesToo(pub: Tables)
    requires Consistent(pub) && pub.scenarios == map[]
    ensures pub.revisions == map[]
  {
    assert NoOrphans(pub);
  }

  lemma CatalogAddsReleases(c: C.Catalog, op: C.Op)
    requires Consistent(c.pub) && !op.DoAuthorPublishes?
    ensures AddsReleases(c.pub, C.Next(c, op).pub)
  {
    hide Consistent, AddsReleases, C.PublishAll, C.IsListing, C.AddCommits, C.AddEntries, C.DistinctFound, C.Prepares;
    Unchanged(c.pub);
    if op.DoComplete? && c.pub.scenarios == map[] && C.PublishAll(c, op.r, op.order).Some? {
      PublishedAreReleases(c, op.r, op.order);
    }
  }

  // ---- Both invariants, always ----

  lemma NextSound(s: Store, op: Op)
    requires Inv(s)
    ensures Sound(s, Next(s, op))
  {
    hide GI.Inv, CS.Inv, Consistent, GI.Sound, CS.Sound, C.SameForReleases, AddsReleases, GR.Next, C.Next, CS.ReleasesMove, Grows;
    ConsistentNow(s);
    GS.Stays(s.generation);
    CS.ReleasesStay(s.catalog.releases);
    GrowsNot(s.catalog.pub);
    if Own(op) {
      match op {
        case OfGeneration(g) =>
          GR.NextSound(s.generation, g);
          GenerationForReleases(s.generation, g);
          GenerationSide(s, GR.Next(s.generation, g));
        case OfCatalog(c) =>
          CP.NextSound(s.catalog, c);
          CatalogAddsReleases(s.catalog, c);
          CatalogSide(s, C.Next(s.catalog, c));
      }
    }
  }

  lemma GrowsNot(pub: Tables)
    ensures Grows(pub, pub)
  {
  }

  lemma ConsistentNow(s: Store)
    requires Inv(s)
    ensures Consistent(s.generation.pub)
  {
  }

  lemma GenerationSide(s: Store, after: G.State)
    requires Inv(s) && GI.Sound(s.generation, after) && C.SameForReleases(s.generation.pub, after.pub)
    ensures Sound(s, Store(after, s.catalog.(pub := after.pub)))
  {
    hide Consistent, C.SameForReleases, CS.EntriesOk, CS.Placed, CS.UniqueRefs, CS.CommitsOk, CS.UniqueCommits, CS.Covered, CS.OneReady,
      CS.PublishedOk, CS.ReleasesMove, GI.Rows, G.OnePerPlan, GI.EndedVerdicts, GI.ClaimsIssued, GI.ReceiptsMatch, GI.Authored, G.OneCurrent, Grows,
      GI.SessionsStay, GI.CandidatesStay, GI.RunsStay, GI.ReceiptsStay, GI.Kept, GI.WorkflowsMove, GI.LeasesFollow;
    CS.AuthorSound(s.catalog, after.pub);
    CS.ReleasesStay(s.catalog.releases);
  }

  lemma CatalogSide(s: Store, after: C.Catalog)
    requires Inv(s) && CS.Sound(s.catalog, after) && AddsReleases(s.catalog.pub, after.pub)
    ensures Sound(s, Store(s.generation.(pub := after.pub), after))
  {
    hide GI.Inv, GI.Sound, Consistent, CS.ReleasesMove, CS.EntriesOk, CS.Placed, CS.UniqueRefs, CS.CommitsOk, CS.UniqueCommits, CS.Covered, CS.OneReady,
      CS.PublishedOk, Grows;
    GP.PublishedAsideKeeps(s.generation, after.pub);
    InvOf(s.generation, s.generation.(pub := after.pub));
  }

  lemma InvOf(s: G.State, t: G.State)
    requires GI.Sound(s, t)
    ensures GI.Inv(t)
  {
    hide GI.Inv;
  }

  lemma EmptyInv()
    ensures Inv(Empty)
  {
  }

  lemma {:induction false} AfterSound(s: Store, ops: seq<Op>)
    requires Inv(s)
    ensures Inv(After(s, ops)) && Grows(s.catalog.pub, After(s, ops).catalog.pub)
  {
    hide Inv, Next, GI.Sound, CS.ReleasesMove, Grows;
    GrowsNot(s.catalog.pub);
    if ops != [] {
      var init := ops[..|ops| - 1];
      AfterSound(s, init);
      NextSound(After(s, init), ops[|ops| - 1]);
      GrowsOn(s.catalog.pub, After(s, init).catalog.pub, After(s, ops).catalog.pub);
    }
  }

  lemma GrowsOn(a: Tables, b: Tables, c: Tables)
    requires Grows(a, b) && Grows(b, c)
    ensures Grows(a, c)
  {
  }
}
