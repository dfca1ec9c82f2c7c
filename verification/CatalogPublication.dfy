/** The one step that publishes a release. */
module CatalogPublication {
  import opened Base
  import opened Scenarios
  import opened Catalog
  import opened CatalogSteps

  function Done(order: seq<EntryKey>): set<EntryKey> { set e | e in order }

  lemma DoneOneMore(before: seq<EntryKey>, e: EntryKey)
    ensures Done(before + [e]) == Done(before) + {e}
  {
  }

  ghost predicate AllAs(commits: map<EntryKey, Commit>, entries: map<EntryKey, Entry>, done: set<EntryKey>, pub: Tables) {
    forall e <- done :: e in commits && e in entries && PublishedAs(pub, commits[e], entries[e])
  }

  ghost predicate OnlyThese(commits: map<EntryKey, Commit>, done: set<EntryKey>, pub: Tables) {
    && (forall s <- pub.scenarios :: exists e :: e in done && e in commits && commits[e].scenario == s)
    && (forall k <- pub.revisions :: exists e :: e in done && e in commits && commits[e].revision == k)
  }

  ghost predicate AllComplete(c: Catalog, r: Id, done: set<EntryKey>) { forall e <- done :: Complete(c, r, e) }

  /** The tables after publishing these commits into an empty catalog hold those and nothing else. */
  ghost predicate Holds(c: Catalog, r: Id, done: set<EntryKey>, pub: Tables) {
    Consistent(pub) && AllComplete(c, r, done) && AllAs(c.commits, c.entries, done, pub) && OnlyThese(c.commits, done, pub)
  }

  lemma EmptyHolds(c: Catalog, r: Id)
    requires Consistent(c.pub) && c.pub.scenarios == map[]
    ensures Holds(c, r, {}, c.pub)
  {
    hide PublishedAs, Complete;
    assert c.pub.revisions.Keys == {};
  }

  lemma OneMoreAs(commits: map<EntryKey, Commit>, entries: map<EntryKey, Entry>, done: set<EntryKey>, pub: Tables, next: Tables, e: EntryKey)
    requires AllAs(commits, entries, done, pub) && e in commits && e in entries
    requires Prepares(entries[e]) && commits[e].materialized.Some?
    requires PublishFirst(pub, commits[e].scenario, StableScenario(commits[e], entries[e]),
                          commits[e].revision, ReleasedRevision(commits[e], entries[e])) == Some(next)
    ensures AllAs(commits, entries, done + {e}, next)
  {
    forall k | k in done + {e} ensures k in commits && k in entries && PublishedAs(next, commits[k], entries[k]) {
      if k != e {
        assert PublishedAs(pub, commits[k], entries[k]);
        KeptAs(pub, next, commits[e], entries[e], commits[k], entries[k]);
      }
    }
  }

  lemma KeptAs(pub: Tables, next: Tables, commit: Commit, entry: Entry, other: Commit, row: Entry)
    requires Prepares(entry) && commit.materialized.Some? && PublishedAs(pub, other, row)
    requires PublishFirst(pub, commit.scenario, StableScenario(commit, entry), commit.revision, ReleasedRevision(commit, entry)) == Some(next)
    ensures PublishedAs(next, other, row)
  {
    hide StableScenario, ReleasedRevision;
  }

  lemma OneMoreOnly(commits: map<EntryKey, Commit>, done: set<EntryKey>, pub: Tables, next: Tables, e: EntryKey)
    requires OnlyThese(commits, done, pub) && e in commits
    requires next.scenarios.Keys == pub.scenarios.Keys + {commits[e].scenario}
    requires next.revisions.Keys == pub.revisions.Keys + {commits[e].revision}
    ensures OnlyThese(commits, done + {e}, next)
  {
    forall s | s in next.scenarios ensures exists k :: k in done + {e} && k in commits && commits[k].scenario == s {
      if s == commits[e].scenario { assert e in done + {e}; } else {
        var k :| k in done && k in commits && commits[k].scenario == s;
        assert k in done + {e};
      }
    }
    forall v | v in next.revisions ensures exists k :: k in done + {e} && k in commits && commits[k].revision == v {
      if v == commits[e].revision { assert e in done + {e}; } else {
        var k :| k in done && k in commits && commits[k].revision == v;
        assert k in done + {e};
      }
    }
  }

  lemma OneMore(c: Catalog, r: Id, done: set<EntryKey>, pub: Tables, e: EntryKey, next: Tables)
    requires Holds(c, r, done, pub) && Complete(c, r, e)
    requires var commit, entry := c.commits[e], c.entries[e];
             PublishFirst(pub, commit.scenario, StableScenario(commit, entry), commit.revision, ReleasedRevision(commit, entry)) == Some(next)
    ensures Holds(c, r, done + {e}, next)
  {
    hide Consistent, RunnableOf, ReportOf, AllAs, OnlyThese;
    var commit, entry := c.commits[e], c.entries[e];
    PublishFirstKeeps(pub, commit.scenario, StableScenario(commit, entry), commit.revision, ReleasedRevision(commit, entry));
    OneMoreAs(c.commits, c.entries, done, pub, next, e);
    OneMoreOnly(c.commits, done, pub, next, e);
  }

  lemma {:induction false} AllPublished(c: Catalog, r: Id, order: seq<EntryKey>)
    requires Consistent(c.pub) && c.pub.scenarios == map[] && PublishAll(c, r, order).Some?
    ensures Holds(c, r, Done(order), PublishAll(c, r, order).value)
  {
    hide Holds, Consistent, Complete, StableScenario, ReleasedRevision, PublishFirst;
    if order == [] {
      EmptyHolds(c, r);
      assert Done(order) == {};
    } else {
      var init, e := order[..|order| - 1], order[|order| - 1];
      AllPublished(c, r, init);
      assert init + [e] == order;
      DoneOneMore(init, e);
      OneMore(c, r, Done(init), PublishAll(c, r, init).value, e, PublishAll(c, r, order).value);
    }
  }

  // ---- No constraint ever stands in the way ----

  lemma NoClash(c: Catalog, r: Id, before: set<EntryKey>, pub: Tables, e: EntryKey)
    requires Holds(c, r, before, pub) && Complete(c, r, e) && e !in before
    requires UniqueCommits(c.commits) && UniqueRefs(c.entries)
    ensures var commit, entry := c.commits[e], c.entries[e];
            PublishFirst(pub, commit.scenario, StableScenario(commit, entry), commit.revision, ReleasedRevision(commit, entry)).Some?
  {
    hide Consistent, RunnableOf, ReportOf;
    var commit, entry := c.commits[e], c.entries[e];
    forall s | s in pub.scenarios
      ensures s != commit.scenario && pub.scenarios[s].slug != commit.slug && pub.scenarios[s].sourceRef != entry.ref
    {
      var k :| k in before && k in c.commits && c.commits[k].scenario == s;
      assert PublishedAs(pub, c.commits[k], c.entries[k]) && Complete(c, r, k);
    }
    forall v | v in pub.revisions
      ensures v != commit.revision && pub.revisions[v].path != Path(commit.slug, commit.revision) && pub.revisions[v].scenario != commit.scenario
    {
      var k :| k in before && k in c.commits && c.commits[k].revision == v;
      assert PublishedAs(pub, c.commits[k], c.entries[k]) && Complete(c, r, k);
    }
  }

  /** A release all of whose commits are complete is published in whole: no unique index refuses a part of it. */
  lemma {:induction false} NothingRefused(c: Catalog, r: Id, order: seq<EntryKey>)
    requires Consistent(c.pub) && c.pub.scenarios == map[] && UniqueCommits(c.commits) && UniqueRefs(c.entries)
    requires forall i, j | 0 <= i < j < |order| :: order[i] != order[j]
    ensures PublishAll(c, r, order).Some? <==> forall e <- order :: Complete(c, r, e)
  {
    hide Holds, Consistent, Complete, UniqueCommits, UniqueRefs, StableScenario, ReleasedRevision, PublishFirst;
    if order != [] {
      var init, e := order[..|order| - 1], order[|order| - 1];
      NothingRefused(c, r, init);
      assert init + [e] == order;
      if PublishAll(c, r, init).Some? && Complete(c, r, e) {
        AllPublished(c, r, init);
        NoClash(c, r, Done(init), PublishAll(c, r, init).value, e);
      }
    }
  }

  // ---- The step ----

  lemma CommittedMaps(c: Catalog, r: Id, order: seq<EntryKey>)
    requires CommitsOk(c.releases, c.entries, c.commits) && UniqueCommits(c.commits) && Covered(c.releases, c.entries, c.commits)
    requires InState(c.releases, r, Committing) && IsListing(c.commits, r, order)
    requires forall e <- order :: e in c.commits && c.commits[e].state == Materialized
    ensures var releases, commits := Enter(c.releases, r, Ready), CommitAll(c.commits, r);
            CommitsOk(releases, c.entries, commits) && UniqueCommits(commits) && Covered(releases, c.entries, commits)
  {
    hide Prepares;
    var commits := CommitAll(c.commits, r);
    forall q ensures CommitsOf(commits, q) == CommitsOf(c.commits, q) {
    }
    forall e | e in commits ensures CommitOk(Enter(c.releases, r, Ready), c.entries, e, commits[e]) {
      assert CommitOk(c.releases, c.entries, e, c.commits[e]);
      if e.release == r { assert e in CommitsOf(c.commits, r); }
    }
  }

  lemma NowPublished(c: Catalog, r: Id, order: seq<EntryKey>, pub: Tables)
    requires Holds(c, r, Done(order), pub) && IsListing(c.commits, r, order)
    requires forall e <- c.commits :: c.commits[e].state != Committed
    ensures PublishedOk(CommitAll(c.commits, r), c.entries, pub)
  {
    hide Consistent, RunnableOf, ReportOf, AllAs, OnlyThese, PublishedAs;
    assert Done(order) == CommitsOf(c.commits, r);
    AsNow(c.commits, c.entries, r, pub);
    assert forall e <- CommitsOf(c.commits, r) :: c.commits[e].state == Materialized by {
      forall e | e in CommitsOf(c.commits, r) ensures c.commits[e].state == Materialized { assert Complete(c, r, e); }
    }
    OnlyNow(c.commits, r, pub);
  }

  lemma AsNow(commits: map<EntryKey, Commit>, entries: map<EntryKey, Entry>, r: Id, pub: Tables)
    requires AllAs(commits, entries, CommitsOf(commits, r), pub) && forall e <- commits :: commits[e].state != Committed
    ensures var after := CommitAll(commits, r);
            forall e <- after :: after[e].state == Committed ==> e in entries && PublishedAs(pub, after[e], entries[e])
  {
    var after := CommitAll(commits, r);
    forall e | e in after && after[e].state == Committed ensures e in entries && PublishedAs(pub, after[e], entries[e]) {
      assert e in CommitsOf(commits, r);
      assert PublishedAs(pub, commits[e], entries[e]);
    }
  }

  lemma OnlyNow(commits: map<EntryKey, Commit>, r: Id, pub: Tables)
    requires OnlyThese(commits, CommitsOf(commits, r), pub) && forall e <- CommitsOf(commits, r) :: commits[e].state == Materialized
    ensures forall s <- pub.scenarios :: FromCommit(CommitAll(commits, r), s)
    ensures forall v <- pub.revisions :: RevisionFromCommit(CommitAll(commits, r), v)
  {
    var after := CommitAll(commits, r);
    forall s | s in pub.scenarios ensures FromCommit(after, s) {
      var e :| e in CommitsOf(commits, r) && e in commits && commits[e].scenario == s;
      assert IsCommitted(after, e);
    }
    forall v | v in pub.revisions ensures RevisionFromCommit(after, v) {
      var e :| e in CommitsOf(commits, r) && e in commits && commits[e].revision == v;
      assert IsCommitted(after, e);
    }
  }

  lemma NoneCommitted(c: Catalog, r: Id)
    requires CommitsOk(c.releases, c.entries, c.commits) && InState(c.releases, r, Committing) && !OtherReady(c.releases, r)
    ensures forall e <- c.commits :: c.commits[e].state != Committed
  {
    hide Prepares;
  }

  lemma AllMaterialized(c: Catalog, r: Id, order: seq<EntryKey>, pub: Tables)
    requires Holds(c, r, Done(order), pub)
    ensures forall e <- order :: e in c.commits && c.commits[e].state == Materialized
    ensures Consistent(pub)
  {
    hide Consistent, PublishedAs;
    forall e | e in order ensures Complete(c, r, e) { assert e in Done(order); }
  }

  lemma CompleteSound(c: Catalog, r: Id, order: seq<EntryKey>)
    requires Inv(c) && IsListing(c.commits, r, order)
    ensures Sound(c, CompleteCommit(c, r, order).after)
  {
    var t := CompleteCommit(c, r, order).after;
    hide Placed, UniqueRefs, UniqueCommits, Covered, OneReady, PublishedOk, Consistent, ReleasesMove, EntryOk, CommitsOk, PublishAll, IsListing, Holds;
    if t == c { Stays(c); } else {
      AllPublished(c, r, order);
      AllMaterialized(c, r, order, t.pub);
      CommittedMaps(c, r, order);
      EnteredMaps(c, r, Ready);
      NoneCommitted(c, r);
      NowPublished(c, r, order, t.pub);
    }
  }

  lemma NextSound(c: Catalog, op: Op)
    requires Inv(c)
    ensures Sound(c, Next(c, op))
  {
    hide Inv, Sound, InitializeRelease, PrepareCommit, MarkCommitMaterialized, CompleteCommit, AuthorPublishes, CreateRelease,
      ReportSourceFailure, FailRelease, RecordFinalizerFailure, MarkEntryMaterialized, MarkEntryVerified, StoreRunnable, StoreReport, IsListing;
    Stays(c);
    match op {
      case DoInitialize(r, source, found) => InitializeSound(c, r, source, found);
      case DoPrepare(r, intents) => PrepareSound(c, r, intents);
      case DoCommitMaterialized(r, e, materialized) => CommitMaterializedSound(c, r, e, materialized);
      case DoComplete(r, order) => if IsListing(c.commits, r, order) { CompleteSound(c, r, order); }
      case DoAuthorPublishes(next) => AuthorSound(c, next);
      case DoStoreRunnable(_, _) => RecordsSound(c, op);
      case DoStoreReport(_, _) => RecordsSound(c, op);
      case DoEntryMaterialized(_, _) => MarkSound(c, op);
      case DoEntryVerified(_, _) => MarkSound(c, op);
      case DoCreate(_) => ReleaseOpsSound(c, op);
      case DoSourceFailure(_) => ReleaseOpsSound(c, op);
      case DoFail(_, _) => ReleaseOpsSound(c, op);
      case DoFinalizerFailure(_, _) => ReleaseOpsSound(c, op);
    }
  }

  lemma {:induction false} AfterSound(c: Catalog, ops: seq<Op>)
    requires Inv(c)
    ensures Inv(After(c, ops))
  {
    hide Inv, Next, ReleasesMove;
    if ops != [] {
      AfterSound(c, ops[..|ops| - 1]);
      NextSound(After(c, ops[..|ops| - 1]), ops[|ops| - 1]);
    }
  }

  lemma EmptyInv()
    ensures Inv(Empty)
  {
  }

  // ---- All or nothing ----

  /** While a release commits, and once it is ready, its commits are one for each of its entries, all distinct. */
  lemma IntentsMatchEntries(ops: seq<Op>, r: Id)
    requires var c := After(Empty, ops); r in c.releases && c.releases[r].state in {Committing, Ready}
    ensures var c := After(Empty, ops);
            EntriesOf(c.entries, r) == CommitsOf(c.commits, r) && EntriesOf(c.entries, r) != {}
            && forall a, b | a in c.commits && b in c.commits && a != b ::
                 c.commits[a].scenario != c.commits[b].scenario && c.commits[a].revision != c.commits[b].revision && c.commits[a].slug != c.commits[b].slug
  {
    hide After;
    EmptyInv();
    AfterSound(Empty, ops);
  }

  /** Nothing of any release is published before one is ready: what is published is committed, by the one ready release. */
  lemma NothingBeforeReady(ops: seq<Op>, s: Id)
    requires var pub := After(Empty, ops).pub; s in pub.scenarios && pub.scenarios[s].kind == Release
    ensures var c := After(Empty, ops);
            exists e :: e in c.commits && c.commits[e].scenario == s && c.commits[e].state == Committed
                        && e.release in c.releases && c.releases[e.release].state == Ready
  {
    hide After;
    EmptyInv();
    AfterSound(Empty, ops);
    var c := After(Empty, ops);
    var e :| IsCommitted(c.commits, e) && c.commits[e].scenario == s;
    assert CommitOk(c.releases, c.entries, e, c.commits[e]);
  }

  /** At ready, every entry is committed and has one active scenario revision, carrying its own validated references. */
  lemma EverythingAtReady(ops: seq<Op>, e: EntryKey)
    requires var c := After(Empty, ops); e in c.entries && InState(c.releases, e.release, Ready)
    ensures var c := After(Empty, ops);
            && e in c.commits && c.commits[e].state == Committed && PublishedAs(c.pub, c.commits[e], c.entries[e])
            && c.pub.scenarios[c.commits[e].scenario]
               == Scenario(Release, c.entries[e].ref, None, Active, c.commits[e].revision, c.commits[e].slug)
            && (var row := c.pub.revisions[c.commits[e].revision];
                row.content == c.entries[e].content && row.path == Path(c.commits[e].slug, c.commits[e].revision)
                && c.commits[e].materialized == Some(row.materialized)
                && c.entries[e].runnable == Some(row.runnable) && c.entries[e].report == Some(row.report))
            && RunnableOf(c.runnables, e, c.entries[e].content, c.entries[e].runnable.value)
            && ReportOf(c.reports, c.entries[e].runnable.value, c.entries[e].report.value)
            && forall k <- c.pub.revisions :: c.pub.revisions[k].scenario == c.commits[e].scenario ==>
                 (c.pub.revisions[k].state == ActiveRevision <==> k == c.commits[e].revision)
  {
    hide After;
    EmptyInv();
    AfterSound(Empty, ops);
    var c := After(Empty, ops);
    assert e in EntriesOf(c.entries, e.release);
    assert CommitOk(c.releases, c.entries, e, c.commits[e]) && EntryOk(c.runnables, c.reports, e, c.entries[e]);
    assert PublishedAs(c.pub, c.commits[e], c.entries[e]);
    OneActiveRevision(c.pub, c.commits[e].scenario);
  }

  /** At most one release is ever ready. */
  lemma OneReleaseIsReady(ops: seq<Op>, a: Id, b: Id)
    requires InState(After(Empty, ops).releases, a, Ready) && InState(After(Empty, ops).releases, b, Ready)
    ensures a == b
  {
    hide After;
    EmptyInv();
    AfterSound(Empty, ops);
  }

  /** A release becomes ready only by being completed, into an empty catalog. */
  lemma ReadyFromEmpty(c: Catalog, op: Op, r: Id)
    requires InState(Next(c, op).releases, r, Ready) && !InState(c.releases, r, Ready)
    ensures op.DoComplete? && op.r == r && InState(c.releases, r, Committing) && c.pub.scenarios == map[]
  {
    hide IsListing, PublishAll, AddCommits, AddEntries, Consistent, SameForReleases, DistinctFound;
  }

  /** Completing a committing release succeeds exactly when the catalog is still empty, no other release is
      ready, and every commit is materialized; then the release is ready, and on failure nothing is published. */
  lemma CompletesIff(ops: seq<Op>, r: Id, order: seq<EntryKey>)
    requires InState(After(Empty, ops).releases, r, Committing) && IsListing(After(Empty, ops).commits, r, order)
    ensures var c := After(Empty, ops);
            var step := CompleteCommit(c, r, order);
            && (step.out.Ok? <==>
                  && c.pub.scenarios == map[] && (forall q <- c.releases :: q != r ==> c.releases[q].state != Ready)
                  && forall e <- CommitsOf(c.commits, r) :: c.commits[e].state == Materialized)
            && (step.out.Ok? ==>
                  && step.out.value == Ready && step.after.releases == c.releases[r := c.releases[r].(state := Ready)]
                  && CompleteCommit(step.after, r, order) == Step(step.after, Ok(Ready)))
            && (step.out.Err? ==> step.after == c)
  {
    hide After, Inv;
    EmptyInv();
    AfterSound(Empty, ops);
    CompletesExactly(After(Empty, ops), r, order);
  }

  lemma CompletesExactly(c: Catalog, r: Id, order: seq<EntryKey>)
    requires Inv(c) && InState(c.releases, r, Committing) && IsListing(c.commits, r, order)
    ensures CompleteCommit(c, r, order).out.Ok? <==>
              && c.pub.scenarios == map[] && (forall q <- c.releases :: q != r ==> c.releases[q].state != Ready)
              && forall e <- CommitsOf(c.commits, r) :: c.commits[e].state == Materialized
    ensures CompleteCommit(c, r, order).out.Err? ==> CompleteCommit(c, r, order).after == c
  {
    ReadyToComplete(c, r, order);
    if c.pub.scenarios == map[] {
      hide Consistent, UniqueCommits, UniqueRefs, PublishAll, Complete;
      NothingRefused(c, r, order);
    }
  }

  lemma ReadyToComplete(c: Catalog, r: Id, order: seq<EntryKey>)
    requires Inv(c) && InState(c.releases, r, Committing) && IsListing(c.commits, r, order)
    ensures EntriesOf(c.entries, r) == CommitsOf(c.commits, r) && EntriesOf(c.entries, r) != {}
    ensures forall e <- order :: e in CommitsOf(c.commits, r) && (Complete(c, r, e) <==> c.commits[e].state == Materialized)
  {
    forall e | e in order ensures Complete(c, r, e) <==> c.commits[e].state == Materialized {
      assert CommitOk(c.releases, c.entries, e, c.commits[e]) && EntryOk(c.runnables, c.reports, e, c.entries[e]);
    }
  }

  /** Terminal releases stay as they ended. */
  lemma {:induction false} TerminalForever(c: Catalog, ops: seq<Op>, r: Id)
    requires Inv(c) && r in c.releases && c.releases[r].state.Terminal()
    ensures r in After(c, ops).releases && After(c, ops).releases[r].state == c.releases[r].state
  {
    hide Inv, Next;
    if ops != [] {
      TerminalForever(c, ops[..|ops| - 1], r);
      AfterSound(c, ops[..|ops| - 1]);
      NextSound(After(c, ops[..|ops| - 1]), ops[|ops| - 1]);
    }
  }
}
