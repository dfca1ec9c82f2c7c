/** What every catalog transaction keeps. */
module CatalogSteps {
  import opened Base
  import opened Scenarios
  import opened Catalog

  // ---- Invariants ----

  /** An entry has the references its state speaks of, and each was validated. */
  ghost predicate EntryOk(runnables: map<Id, RunnableRow>, reports: map<Id, ReportRow>, e: EntryKey, entry: Entry) {
    && (entry.runnable.Some? ==> RunnableOf(runnables, e, entry.content, entry.runnable.value))
    && (entry.report.Some? ==> entry.runnable.Some? && ReportOf(reports, entry.runnable.value, entry.report.value))
    && (entry.state != ReadyToCommit ==> entry.report.None?)
    && (entry.state == Verifying ==> entry.runnable.Some?)
    && (entry.state == ReadyToCommit ==> entry.runnable.Some? && entry.report.Some?)
  }

  ghost predicate EntriesOk(c: Catalog) { forall e <- c.entries :: EntryOk(c.runnables, c.reports, e, c.entries[e]) }

  /** A pending release has no entries yet. */
  ghost predicate Placed(releases: map<Id, ReleaseRow>, entries: map<EntryKey, Entry>) {
    forall e <- entries :: e.release in releases && releases[e.release].state != Pending
  }

  ghost predicate UniqueRefs(entries: map<EntryKey, Entry>) {
    forall a, b | a in entries && b in entries && a.release == b.release && entries[a].ref == entries[b].ref :: a == b
  }

  /** A commit is of an entry of its own release that is ready; committed exactly when the release is. */
  ghost predicate CommitOk(releases: map<Id, ReleaseRow>, entries: map<EntryKey, Entry>, e: EntryKey, commit: Commit) {
    && commit.release == e.release && e in entries && Prepares(entries[e])
    && e.release in releases && releases[e.release].state in {Committing, Ready, Failed}
    && (commit.state == Committed <==> releases[e.release].state == Ready)
    && (commit.materialized.Some? <==> commit.state != Prepared)
  }

  ghost predicate CommitsOk(releases: map<Id, ReleaseRow>, entries: map<EntryKey, Entry>, commits: map<EntryKey, Commit>) {
    forall e <- commits :: CommitOk(releases, entries, e, commits[e])
  }

  ghost predicate UniqueCommits(commits: map<EntryKey, Commit>) {
    forall a, b | a in commits && b in commits
      && (commits[a].scenario == commits[b].scenario || commits[a].revision == commits[b].revision || commits[a].slug == commits[b].slug) :: a == b
  }

  /** While a release commits, and ever after, its commits are one for each of its entries. */
  ghost predicate Covered(releases: map<Id, ReleaseRow>, entries: map<EntryKey, Entry>, commits: map<EntryKey, Commit>) {
    forall r <- releases :: releases[r].state in {Committing, Ready} ==>
      EntriesOf(entries, r) == CommitsOf(commits, r) && EntriesOf(entries, r) != {}
  }

  ghost predicate OneReady(releases: map<Id, ReleaseRow>) {
    forall a, b | a in releases && b in releases && releases[a].state == Ready && releases[b].state == Ready :: a == b
  }

  /** The entry is published under its commit's identities, with its own references. */
  ghost predicate PublishedAs(pub: Tables, commit: Commit, entry: Entry) {
    && commit.materialized.Some? && entry.runnable.Some? && entry.report.Some?
    && commit.scenario in pub.scenarios && pub.scenarios[commit.scenario] == StableScenario(commit, entry)
    && commit.revision in pub.revisions && pub.revisions[commit.revision] == ReleasedRevision(commit, entry)
  }

  ghost predicate IsCommitted(commits: map<EntryKey, Commit>, e: EntryKey) { e in commits && commits[e].state == Committed }

  ghost predicate FromCommit(commits: map<EntryKey, Commit>, scenario: Id) { exists e :: IsCommitted(commits, e) && commits[e].scenario == scenario }

  ghost predicate RevisionFromCommit(commits: map<EntryKey, Commit>, revision: Id) {
    exists e :: IsCommitted(commits, e) && commits[e].revision == revision
  }

  /** Exactly the committed entries are published. */
  ghost predicate PublishedOk(commits: map<EntryKey, Commit>, entries: map<EntryKey, Entry>, pub: Tables) {
    && (forall e <- commits :: commits[e].state == Committed ==> e in entries && PublishedAs(pub, commits[e], entries[e]))
    && (forall s <- pub.scenarios :: pub.scenarios[s].kind == Release ==> FromCommit(commits, s))
    && (forall r <- pub.revisions :: pub.revisions[r].kind == Release ==> RevisionFromCommit(commits, r))
  }

  ghost predicate Inv(c: Catalog) {
    && EntriesOk(c) && Placed(c.releases, c.entries) && UniqueRefs(c.entries)
    && CommitsOk(c.releases, c.entries, c.commits) && UniqueCommits(c.commits) && Covered(c.releases, c.entries, c.commits)
    && OneReady(c.releases) && PublishedOk(c.commits, c.entries, c.pub) && Consistent(c.pub)
  }

  /** A release moves forward only; its attempts are few. */
  predicate Edge(a: ReleaseState, b: ReleaseState) {
    || a == b
    || (a == Pending && b in {Installing, Failed})
    || (a == Installing && b in {Committing, Failed})
    || (a == Committing && b in {Ready, Failed})
  }

  ghost predicate ReleasesMove(a: map<Id, ReleaseRow>, b: map<Id, ReleaseRow>) {
    && (forall r <- a :: r in b && Edge(a[r].state, b[r].state))
    && (forall r <- b :: r in a || b[r].state == Pending)
  }

  // ---- Rows of releases ----

  lemma ReleaseRowMoves(c: Catalog, r: Id, row: ReleaseRow)
    requires Placed(c.releases, c.entries) && CommitsOk(c.releases, c.entries, c.commits) && OneReady(c.releases)
    requires Covered(c.releases, c.entries, c.commits)
    requires if r in c.releases then row.state == c.releases[r].state || (row.state == Failed && !c.releases[r].state.Terminal())
             else row.state == Pending
    ensures var releases := c.releases[r := row];
            && Placed(releases, c.entries) && CommitsOk(releases, c.entries, c.commits) && OneReady(releases)
            && Covered(releases, c.entries, c.commits) && ReleasesMove(c.releases, releases)
  {
    hide Prepares;
  }

  /** A release is created, fails, or is tried again. */
  lemma ReleaseMoves(c: Catalog, r: Id, row: ReleaseRow)
    requires Inv(c)
    requires if r in c.releases then row.state == c.releases[r].state || (row.state == Failed && !c.releases[r].state.Terminal())
             else row.state == Pending
    ensures Inv(c.(releases := c.releases[r := row])) && ReleasesMove(c.releases, c.releases[r := row])
  {
    ReleaseRowMoves(c, r, row);
    hide EntryOk, Placed, UniqueRefs, CommitsOk, UniqueCommits, Covered, OneReady, PublishedOk, Consistent, ReleasesMove;
  }

  lemma ReleasesStay(releases: map<Id, ReleaseRow>)
    ensures ReleasesMove(releases, releases)
  {
  }

  ghost predicate Sound(c: Catalog, t: Catalog) { Inv(t) && ReleasesMove(c.releases, t.releases) }

  lemma Stays(c: Catalog)
    requires Inv(c)
    ensures Sound(c, c)
  {
    hide Inv, ReleasesMove;
    ReleasesStay(c.releases);
  }

  lemma ReleaseOpsSound(c: Catalog, op: Op)
    requires Inv(c) && (op.DoCreate? || op.DoSourceFailure? || op.DoFail? || op.DoFinalizerFailure?)
    ensures Sound(c, Next(c, op))
  {
    hide Inv, ReleasesMove, Sound;
    var t := Next(c, op);
    if t == c { Stays(c); } else {
      ReleaseMoves(c, op.r, t.releases[op.r]);
      MovedSound(c, op.r, t.releases[op.r]);
    }
  }

  lemma MovedSound(c: Catalog, r: Id, row: ReleaseRow)
    requires Inv(c.(releases := c.releases[r := row])) && ReleasesMove(c.releases, c.releases[r := row])
    ensures Sound(c, c.(releases := c.releases[r := row]))
  {
  }

  // ---- Records ----

  lemma RecordsSound(c: Catalog, op: Op)
    requires Inv(c) && (op.DoStoreRunnable? || op.DoStoreReport?)
    ensures Sound(c, Next(c, op))
  {
    hide Placed, UniqueRefs, CommitsOk, UniqueCommits, Covered, OneReady, PublishedOk, Consistent, ReleasesMove;
    ReleasesStay(c.releases);
  }

  // ---- Entries ----

  /** Adding a release's entries. */
  lemma {:induction false} AddedEntries(entries: map<EntryKey, Entry>, r: Id, found: seq<Found>)
    requires AddEntries(entries, r, found).Some? && DistinctFound(found) && UniqueRefs(entries)
    requires forall e <- entries :: e.release != r
    ensures var after := AddEntries(entries, r, found).value;
            && (forall e <- entries :: e in after && after[e] == entries[e])
            && (forall e <- after :: e in entries || (e.release == r && exists i | 0 <= i < |found| :: e.path == found[i].path && after[e] == NewEntry(found[i])))
            && UniqueRefs(after)
  {
    if found != [] {
      var init, last := found[..|found| - 1], found[|found| - 1];
      AddedEntries(entries, r, init);
      var before := AddEntries(entries, r, init).value;
      var after := AddEntries(entries, r, found).value;
      forall e | e in after && e !in entries
        ensures e.release == r && exists i | 0 <= i < |found| :: e.path == found[i].path && after[e] == NewEntry(found[i])
      {
        if e != EntryKey(r, last.path) {
          var i :| 0 <= i < |init| && e.path == init[i].path && before[e] == NewEntry(init[i]);
          assert found[i] == init[i];
        }
      }
      forall a, b | a in after && b in after && a.release == b.release && after[a].ref == after[b].ref ensures a == b {
      }
    }
  }

  lemma NewEntriesOk(c: Catalog, r: Id, found: seq<Found>, e: EntryKey, entry: Entry)
    requires exists i | 0 <= i < |found| :: entry == NewEntry(found[i])
    ensures EntryOk(c.runnables, c.reports, e, entry)
  {
  }

  lemma InitializedMaps(c: Catalog, r: Id, row: ReleaseRow, entries: map<EntryKey, Entry>)
    requires Placed(c.releases, c.entries) && CommitsOk(c.releases, c.entries, c.commits) && OneReady(c.releases)
    requires Covered(c.releases, c.entries, c.commits) && InState(c.releases, r, Pending) && row.state == Installing
    requires forall e <- c.entries :: e in entries && entries[e] == c.entries[e]
    requires forall e <- entries :: e in c.entries || e.release == r
    ensures var releases := c.releases[r := row];
            && Placed(releases, entries) && CommitsOk(releases, entries, c.commits) && OneReady(releases)
            && Covered(releases, entries, c.commits) && ReleasesMove(c.releases, releases)
  {
    hide Prepares;
    forall q | q in c.releases && c.releases[q].state in {Committing, Ready} ensures EntriesOf(entries, q) == EntriesOf(c.entries, q) {
    }
  }

  lemma StillPublished(c: Catalog, entries: map<EntryKey, Entry>, commits: map<EntryKey, Commit>)
    requires PublishedOk(c.commits, c.entries, c.pub)
    requires forall e <- commits :: commits[e].state == Committed ==> e in entries && e in c.entries && entries[e] == c.entries[e]
    requires forall e <- c.commits :: e in commits && (c.commits[e].state == Committed ==> commits[e] == c.commits[e])
    requires forall e <- commits :: commits[e].state == Committed ==> e in c.commits && c.commits[e] == commits[e]
    ensures PublishedOk(commits, entries, c.pub)
  {
    forall s | s in c.pub.scenarios && c.pub.scenarios[s].kind == Release ensures FromCommit(commits, s) {
      var e :| IsCommitted(c.commits, e) && c.commits[e].scenario == s;
      assert IsCommitted(commits, e);
    }
    forall r | r in c.pub.revisions && c.pub.revisions[r].kind == Release ensures RevisionFromCommit(commits, r) {
      var e :| IsCommitted(c.commits, e) && c.commits[e].revision == r;
      assert IsCommitted(commits, e);
    }
  }

  lemma InitializeSound(c: Catalog, r: Id, source: Id, found: seq<Found>)
    requires Inv(c)
    ensures Sound(c, InitializeRelease(c, r, source, found).after)
  {
    var t := InitializeRelease(c, r, source, found).after;
    hide UniqueRefs, UniqueCommits, Covered, OneReady, PublishedOk, Consistent, ReleasesMove, EntryOk, CommitsOk, DistinctFound;
    if t == c { Stays(c); } else {
      AddedEntries(c.entries, r, found);
      InitializedMaps(c, r, t.releases[r], t.entries);
      forall e | e in t.entries ensures EntryOk(t.runnables, t.reports, e, t.entries[e]) {
        if e !in c.entries { NewEntriesOk(c, r, found, e, t.entries[e]); }
      }
      CommittedEntries(c);
      StillPublished(c, t.entries, t.commits);
    }
  }

  lemma CommittedEntries(c: Catalog)
    requires CommitsOk(c.releases, c.entries, c.commits)
    ensures forall e <- c.commits :: e in c.entries
  {
  }

  /** While its release installs, an entry has no commit. */
  lemma Uncommitted(c: Catalog, e: EntryKey)
    requires CommitsOk(c.releases, c.entries, c.commits) && InState(c.releases, e.release, Installing)
    ensures e !in c.commits
  {
  }

  lemma MarkedMaps(c: Catalog, e: EntryKey, entry: Entry)
    requires Placed(c.releases, c.entries) && UniqueRefs(c.entries) && CommitsOk(c.releases, c.entries, c.commits)
    requires Covered(c.releases, c.entries, c.commits)
    requires e in c.entries && e !in c.commits && entry.ref == c.entries[e].ref
    ensures var entries := c.entries[e := entry];
            && Placed(c.releases, entries) && UniqueRefs(entries) && CommitsOk(c.releases, entries, c.commits)
            && Covered(c.releases, entries, c.commits)
  {
    hide Prepares;
    forall r ensures EntriesOf(c.entries[e := entry], r) == EntriesOf(c.entries, r) {
    }
  }

  lemma MarkSound(c: Catalog, op: Op)
    requires Inv(c) && (op.DoEntryMaterialized? || op.DoEntryVerified?)
    ensures Sound(c, Next(c, op))
  {
    var t := Next(c, op);
    hide Placed, UniqueRefs, UniqueCommits, Covered, OneReady, PublishedOk, Consistent, ReleasesMove, CommitsOk;
    if t == c { Stays(c); } else {
      ReleasesStay(c.releases);
      Uncommitted(c, op.e);
      MarkedMaps(c, op.e, t.entries[op.e]);
      CommittedEntries(c);
      StillPublished(c, t.entries, t.commits);
    }
  }

  // ---- Intents ----

  lemma UniqueMore(commits: map<EntryKey, Commit>, r: Id, i: Intent)
    requires UniqueCommits(commits) && CanCommit(commits, i)
    ensures UniqueCommits(commits[i.entry := NewCommit(r, i)])
  {
  }

  /** Exactly one prepared commit more for each named entry. */
  ghost predicate Adds(commits: map<EntryKey, Commit>, after: map<EntryKey, Commit>, named: set<EntryKey>, r: Id) {
    && after.Keys == commits.Keys + named && named !! commits.Keys
    && (forall e <- commits :: after[e] == commits[e])
    && (forall e <- named :: after[e].release == r && after[e].state == Prepared && after[e].materialized == None)
  }

  lemma AddsOne(commits: map<EntryKey, Commit>, before: map<EntryKey, Commit>, named: set<EntryKey>, r: Id, last: Intent)
    requires Adds(commits, before, named, r) && last.entry !in before
    ensures Adds(commits, before[last.entry := NewCommit(r, last)], named + {last.entry}, r) && last.entry !in named
  {
  }

  lemma NothingNamed(commits: map<EntryKey, Commit>, r: Id)
    ensures Named([]) == {} && Adds(commits, commits, {}, r)
  {
  }

  lemma {:induction false} AddedCommits(commits: map<EntryKey, Commit>, r: Id, intents: seq<Intent>)
    requires AddCommits(commits, r, intents).Some? && UniqueCommits(commits)
    ensures var after := AddCommits(commits, r, intents).value;
            UniqueCommits(after) && Adds(commits, after, Named(intents), r) && |Named(intents)| == |intents|
  {
    hide UniqueCommits, Named, Adds;
    NothingNamed(commits, r);
    if intents != [] {
      var init, last := intents[..|intents| - 1], intents[|intents| - 1];
      AddedCommits(commits, r, init);
      assert init + [last] == intents;
      NamedMore(init, last);
      UniqueMore(AddCommits(commits, r, init).value, r, last);
      AddsOne(commits, AddCommits(commits, r, init).value, Named(init), r, last);
    }
  }

  lemma NamedMore(intents: seq<Intent>, last: Intent)
    ensures Named(intents + [last]) == Named(intents) + {last.entry}
  {
    var more := intents + [last];
    assert more[|intents|] == last && forall i | 0 <= i < |intents| :: more[i] == intents[i];
    forall e | e in Named(intents) + {last.entry} ensures e in Named(more) {
      if e in Named(intents) {
        var i :| 0 <= i < |intents| && intents[i].entry == e;
        assert more[i].entry == e;
      } else {
        assert more[|intents|].entry == e;
      }
    }
  }

  /** As many intents as entries, naming all of them, name nothing else. */
  lemma SameSize(a: set<EntryKey>, b: set<EntryKey>)
    requires a <= b && |a| == |b|
    ensures a == b
  {
    assert b == a + (b - a) && |a + (b - a)| == |a| + |b - a|;
  }

  lemma PreparedMaps(c: Catalog, r: Id, commits: map<EntryKey, Commit>, named: set<EntryKey>)
    requires CommitsOk(c.releases, c.entries, c.commits) && Covered(c.releases, c.entries, c.commits)
    requires InState(c.releases, r, Installing) && named == EntriesOf(c.entries, r) && named != {}
    requires commits.Keys == c.commits.Keys + named && named !! c.commits.Keys
    requires forall e <- c.commits :: commits[e] == c.commits[e]
    requires forall e <- named :: commits[e].release == r && commits[e].state == Prepared && commits[e].materialized == None && Prepares(c.entries[e])
    ensures var releases := Enter(c.releases, r, Committing);
            CommitsOk(releases, c.entries, commits) && Covered(releases, c.entries, commits)
  {
    hide Prepares;
    forall q ensures CommitsOf(commits, q) == CommitsOf(c.commits, q) + (if q == r then named else {}) {
    }
    assert CommitsOf(c.commits, r) == {};
  }

  lemma EnteredMaps(c: Catalog, r: Id, state: ReleaseState)
    requires Placed(c.releases, c.entries) && OneReady(c.releases) && r in c.releases
    requires Edge(c.releases[r].state, state) && state != Pending && (state == Ready ==> !OtherReady(c.releases, r))
    ensures var releases := Enter(c.releases, r, state);
            Placed(releases, c.entries) && OneReady(releases) && ReleasesMove(c.releases, releases)
  {
  }

  lemma PrepareSound(c: Catalog, r: Id, intents: seq<Intent>)
    requires Inv(c)
    ensures Sound(c, PrepareCommit(c, r, intents).after)
  {
    var t := PrepareCommit(c, r, intents).after;
    hide Placed, UniqueRefs, UniqueCommits, Covered, OneReady, PublishedOk, Consistent, ReleasesMove, EntryOk, CommitsOk, Named, AddCommits, Prepares;
    if t == c { Stays(c); } else {
      AddedCommits(c.commits, r, intents);
      SameSize(EntriesOf(c.entries, r), Named(intents));
      PreparedMaps(c, r, t.commits, Named(intents));
      EnteredMaps(c, r, Committing);
      CommittedEntries(c);
      StillPublished(c, c.entries, t.commits);
    }
  }

  lemma MaterializedMaps(c: Catalog, e: EntryKey, materialized: Id)
    requires CommitsOk(c.releases, c.entries, c.commits) && UniqueCommits(c.commits) && Covered(c.releases, c.entries, c.commits)
    requires e in c.commits && c.commits[e].state == Prepared
    ensures var commits := c.commits[e := c.commits[e].(state := Materialized, materialized := Some(materialized))];
            CommitsOk(c.releases, c.entries, commits) && UniqueCommits(commits) && Covered(c.releases, c.entries, commits)
  {
    hide Prepares;
    forall q ensures CommitsOf(c.commits[e := c.commits[e].(state := Materialized, materialized := Some(materialized))], q) == CommitsOf(c.commits, q) {
    }
  }

  lemma CommitMaterializedSound(c: Catalog, r: Id, e: EntryKey, materialized: Id)
    requires Inv(c)
    ensures Sound(c, MarkCommitMaterialized(c, r, e, materialized).after)
  {
    var t := MarkCommitMaterialized(c, r, e, materialized).after;
    hide Placed, UniqueRefs, UniqueCommits, Covered, OneReady, PublishedOk, Consistent, ReleasesMove, EntryOk, CommitsOk;
    if t == c { Stays(c); } else {
      ReleasesStay(c.releases);
      MaterializedMaps(c, e, materialized);
      CommittedEntries(c);
      StillPublished(c, c.entries, t.commits);
    }
  }

  // ---- The other publisher ----

  lemma AuthorSound(c: Catalog, next: Tables)
    requires Inv(c)
    ensures Sound(c, AuthorPublishes(c, next).after)
  {
    hide Placed, UniqueRefs, UniqueCommits, Covered, OneReady, Consistent, ReleasesMove, EntryOk, CommitsOk, FromCommit, RevisionFromCommit;
    ReleasesStay(c.releases);
  }
}
