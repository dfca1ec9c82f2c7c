/** The catalog's repository: each method is one transaction on the tables. */
module CatalogRepository {
  import opened Base
  import opened Scenarios
  import opened Catalog
  import opened CatalogSteps
  import opened CatalogPublication

  lemma SoundInv(c: Catalog, t: Catalog)
    requires Sound(c, t)
    ensures Inv(t)
  {
  }

  // ---- A refusal half way refuses the whole ----

  lemma {:induction false} EntriesRefused(entries: map<EntryKey, Entry>, r: Id, found: seq<Found>, n: nat)
    requires n <= |found| && AddEntries(entries, r, found[..n]).None?
    ensures AddEntries(entries, r, found).None?
  {
    if n == |found| {
      assert found[..n] == found;
    } else {
      assert found[..|found| - 1][..n] == found[..n];
      EntriesRefused(entries, r, found[..|found| - 1], n);
    }
  }

  lemma {:induction false} CommitsRefused(commits: map<EntryKey, Commit>, r: Id, intents: seq<Intent>, n: nat)
    requires n <= |intents| && AddCommits(commits, r, intents[..n]).None?
    ensures AddCommits(commits, r, intents).None?
  {
    hide CanCommit;
    if n == |intents| {
      assert intents[..n] == intents;
    } else {
      assert intents[..|intents| - 1][..n] == intents[..n];
      CommitsRefused(commits, r, intents[..|intents| - 1], n);
    }
  }

  lemma {:induction false} PublicationRefused(c: Catalog, r: Id, order: seq<EntryKey>, n: nat)
    requires n <= |order| && PublishAll(c, r, order[..n]).None?
    ensures PublishAll(c, r, order).None?
  {
    hide PublishFirst, StableScenario, ReleasedRevision;
    if n == |order| {
      assert order[..n] == order;
    } else {
      assert order[..|order| - 1][..n] == order[..n];
      PublicationRefused(c, r, order[..|order| - 1], n);
    }
  }

  method CheckDistinct(found: seq<Found>) returns (ok: bool)
    ensures ok <==> DistinctFound(found)
  {
    var paths, refs := {}, {};
    var i := 0;
    while i < |found|
      invariant 0 <= i <= |found|
      invariant forall p :: p in paths <==> exists k | 0 <= k < i :: found[k].path == p
      invariant forall p :: p in refs <==> exists k | 0 <= k < i :: found[k].ref == p
      invariant DistinctFound(found[..i])
    {
      if found[i].path in paths || found[i].ref in refs { return false; }
      paths, refs := paths + {found[i].path}, refs + {found[i].ref};
      i := i + 1;
    }
    assert found[..|found|] == found;
    return true;
  }

  method AllReady(entries: map<EntryKey, Entry>, keys: set<EntryKey>) returns (ok: bool)
    requires keys <= entries.Keys
    ensures ok <==> forall e <- keys :: Prepares(entries[e])
  {
    var rest := keys;
    while rest != {}
      invariant rest <= keys
      invariant forall e <- keys :: e in rest || Prepares(entries[e])
      decreases |rest|
    {
      var e :| e in rest;
      if !Prepares(entries[e]) { return false; }
      rest := rest - {e};
    }
    return true;
  }

  /** The rows of a query, in some order. */
  method List(keys: set<EntryKey>) returns (order: seq<EntryKey>)
    ensures forall e :: e in order <==> e in keys
    ensures forall i, j | 0 <= i < j < |order| :: order[i] != order[j]
  {
    order := [];
    var rest := keys;
    while rest != {}
      invariant rest <= keys
      invariant forall e :: e in order <==> e in keys && e !in rest
      invariant forall i, j | 0 <= i < j < |order| :: order[i] != order[j]
      decreases |rest|
    {
      var e :| e in rest;
      order, rest := order + [e], rest - {e};
    }
  }

  method InsertEntries(entries: map<EntryKey, Entry>, r: Id, found: seq<Found>) returns (after: Option<map<EntryKey, Entry>>)
    ensures after == AddEntries(entries, r, found)
  {
    var rows := entries;
    var i := 0;
    while i < |found|
      invariant 0 <= i <= |found|
      invariant AddEntries(entries, r, found[..i]) == Some(rows)
    {
      assert found[..i + 1][..i] == found[..i];
      var key := EntryKey(r, found[i].path);
      if key in rows {
        EntriesRefused(entries, r, found, i + 1);
        return None;
      }
      rows := rows[key := NewEntry(found[i])];
      i := i + 1;
    }
    assert found[..|found|] == found;
    return Some(rows);
  }

  method InsertCommits(commits: map<EntryKey, Commit>, r: Id, intents: seq<Intent>) returns (after: Option<map<EntryKey, Commit>>, seen: set<EntryKey>)
    ensures after == AddCommits(commits, r, intents)
    ensures after.Some? ==> seen == Named(intents)
  {
    hide CanCommit;
    var rows := commits;
    seen := {};
    var i := 0;
    while i < |intents|
      invariant 0 <= i <= |intents|
      invariant AddCommits(commits, r, intents[..i]) == Some(rows)
      invariant seen == Named(intents[..i])
    {
      assert intents[..i + 1][..i] == intents[..i];
      assert intents[..i + 1] == intents[..i] + [intents[i]];
      NamedMore(intents[..i], intents[i]);
      if !CanCommit(rows, intents[i]) {
        CommitsRefused(commits, r, intents, i + 1);
        return None, seen;
      }
      rows := rows[intents[i].entry := NewCommit(r, intents[i])];
      seen := seen + {intents[i].entry};
      i := i + 1;
    }
    assert intents[..|intents|] == intents;
    return Some(rows), seen;
  }

  method PublishEach(c: Catalog, r: Id, order: seq<EntryKey>) returns (after: Option<Tables>)
    ensures after == PublishAll(c, r, order)
  {
    hide CanInsertScenario, CanInsertRevision;
    var tx := c.pub;
    var i := 0;
    while i < |order|
      invariant 0 <= i <= |order|
      invariant PublishAll(c, r, order[..i]) == Some(tx)
    {
      assert order[..i + 1][..i] == order[..i];
      var e := order[i];
      if !Complete(c, r, e) {
        PublicationRefused(c, r, order, i + 1);
        return None;
      }
      var commit, entry := c.commits[e], c.entries[e];
      var stable, published := StableScenario(commit, entry), ReleasedRevision(commit, entry);
      if !CanInsertScenario(tx, commit.scenario, stable) || !CanInsertRevision(InsertScenario(tx, commit.scenario, stable), commit.revision, published) {
        PublicationRefused(c, r, order, i + 1);
        return None;
      }
      tx := InsertScenario(tx, commit.scenario, stable);
      tx := InsertRevision(tx, commit.revision, published);
      i := i + 1;
    }
    assert order[..|order|] == order;
    return Some(tx);
  }

  class Repository {
    var db: Catalog

    ghost predicate Valid()
      reads this
    {
      Inv(db)
    }

    constructor ()
      ensures Valid() && db == Empty
    {
      db := Empty;
      EmptyInv();
    }

    method CreateOrGet(r: Id) returns (out: Outcome<bool>)
      requires Valid()
      modifies this
      ensures Valid()
      ensures Step(db, out) == CreateRelease(old(db), r)
    {
      hide Inv, Sound;
      ReleaseOpsSound(db, DoCreate(r));
      SoundInv(db, CreateRelease(db, r).after);
      if r in db.releases { return Ok(false); }
      db := db.(releases := db.releases[r := ReleaseRow(Pending, 0, 1)]);
      return Ok(true);
    }

    method Initialize(r: Id, source: Id, found: seq<Found>) returns (out: Outcome<ReleaseState>)
      requires Valid()
      modifies this
      ensures Valid()
      ensures Step(db, out) == InitializeRelease(old(db), r, source, found)
    {
      hide Inv, Sound, DistinctFound, AddEntries;
      InitializeSound(db, r, source, found);
      SoundInv(db, InitializeRelease(db, r, source, found).after);
      var distinct := CheckDistinct(found);
      if !distinct { return Err(Invalid); }
      var tx := db;
      if r !in tx.releases { return Err(NotFound); }
      var current := tx.releases[r];
      if current.state != Pending {
        if current.state.Terminal() { return Ok(current.state); }
        if current.source != source { return Err(Conflict); }
        return Ok(current.state);
      }
      var entries := InsertEntries(tx.entries, r, found);
      if entries.None? { return Err(Constraint); }
      tx := tx.(entries := entries.value);
      tx := tx.(releases := tx.releases[r := current.(source := source, state := Installing)]);
      db := tx;
      return Ok(Installing);
    }

    method ReportSourceInfrastructureFailure(r: Id) returns (out: Outcome<ReleaseState>)
      requires Valid()
      modifies this
      ensures Valid()
      ensures Step(db, out) == ReportSourceFailure(old(db), r)
    {
      hide Inv, Sound;
      ReleaseOpsSound(db, DoSourceFailure(r));
      SoundInv(db, ReportSourceFailure(db, r).after);
      if r !in db.releases { return Err(NotFound); }
      var release := db.releases[r];
      if release.state != Pending { return Err(InvalidState); }
      if release.attempt >= MaxSourceAttempts {
        release := release.(state := Failed);
      } else {
        release := release.(attempt := release.attempt + 1);
      }
      db := db.(releases := db.releases[r := release]);
      return Ok(release.state);
    }

    method Fail(r: Id, onlyPending: bool) returns (out: Outcome<()>)
      requires Valid()
      modifies this
      ensures Valid()
      ensures Step(db, out) == FailRelease(old(db), r, onlyPending)
    {
      hide Inv, Sound;
      ReleaseOpsSound(db, DoFail(r, onlyPending));
      SoundInv(db, FailRelease(db, r, onlyPending).after);
      var allowed := {Pending, Installing, Committing};
      if onlyPending { allowed := {Pending}; }
      if r !in db.releases || db.releases[r].state !in allowed { return Err(InvalidState); }
      db := db.(releases := db.releases[r := db.releases[r].(state := Failed)]);
      return Ok(());
    }

    method RecordFailure(r: Id, deterministic: bool) returns (out: Outcome<()>)
      requires Valid()
      modifies this
      ensures Valid()
      ensures Step(db, out) == RecordFinalizerFailure(old(db), r, deterministic)
    {
      hide Inv, Sound;
      ReleaseOpsSound(db, DoFinalizerFailure(r, deterministic));
      SoundInv(db, RecordFinalizerFailure(db, r, deterministic).after);
      if r !in db.releases { return Err(NotFound); }
      var release := db.releases[r];
      if release.state != Installing && release.state != Committing { return Err(InvalidState); }
      var state := release.state;
      if deterministic { state := Failed; }
      assert !deterministic ==> db.releases[r := release.(state := state)] == db.releases;
      db := db.(releases := db.releases[r := release.(state := state)]);
      return Ok(());
    }

    method EntryMaterialized(e: EntryKey, ref: RunnableRef) returns (out: Outcome<()>)
      requires Valid()
      modifies this
      ensures Valid()
      ensures Step(db, out) == MarkEntryMaterialized(old(db), e, ref)
    {
      hide Inv, Sound;
      MarkSound(db, DoEntryMaterialized(e, ref));
      SoundInv(db, MarkEntryMaterialized(db, e, ref).after);
      if e !in db.entries { return Err(NotFound); }
      var entry := db.entries[e];
      if entry.state == Verifying && entry.runnable == Some(ref) { return Ok(()); }
      if entry.state != Materializing { return Err(InvalidState); }
      if !RunnableOf(db.runnables, e, entry.content, ref) { return Err(Invalid); }
      if !InState(db.releases, e.release, Installing) { return Err(InvalidState); }
      entry := entry.(state := Verifying, version := entry.version + 1, runnable := Some(ref));
      db := db.(entries := db.entries[e := entry]);
      return Ok(());
    }

    method EntryVerified(e: EntryKey, ref: ReportRef) returns (out: Outcome<()>)
      requires Valid()
      modifies this
      ensures Valid()
      ensures Step(db, out) == MarkEntryVerified(old(db), e, ref)
    {
      hide Inv, Sound;
      MarkSound(db, DoEntryVerified(e, ref));
      SoundInv(db, MarkEntryVerified(db, e, ref).after);
      if e !in db.entries { return Err(NotFound); }
      var entry := db.entries[e];
      if entry.state == ReadyToCommit && entry.report == Some(ref) { return Ok(()); }
      if entry.state != Verifying || entry.runnable.None? { return Err(InvalidState); }
      if !ReportOf(db.reports, entry.runnable.value, ref) { return Err(Invalid); }
      if !InState(db.releases, e.release, Installing) { return Err(InvalidState); }
      entry := entry.(state := ReadyToCommit, version := entry.version + 1, report := Some(ref));
      db := db.(entries := db.entries[e := entry]);
      return Ok(());
    }

    method Prepare(r: Id, intents: seq<Intent>) returns (out: Outcome<ReleaseState>)
      requires Valid()
      modifies this
      ensures Valid()
      ensures Step(db, out) == PrepareCommit(old(db), r, intents)
    {
      hide Inv, Sound, AddCommits, Named, Prepares;
      PrepareSound(db, r, intents);
      SoundInv(db, PrepareCommit(db, r, intents).after);
      var tx := db;
      if r !in tx.releases { return Err(NotFound); }
      var release := tx.releases[r];
      if release.state == Committing { return Ok(Committing); }
      if release.state != Installing { return Err(InvalidState); }
      var entries := EntriesOf(tx.entries, r);
      if |entries| == 0 || |entries| != |intents| { return Err(Invalid); }
      var ready := AllReady(tx.entries, entries);
      if !ready { return Err(InvalidState); }
      var commits, seen := InsertCommits(tx.commits, r, intents);
      if commits.None? { return Err(Constraint); }
      if !(entries <= seen) { return Err(Invalid); }
      tx := tx.(commits := commits.value);
      tx := tx.(releases := tx.releases[r := release.(state := Committing)]);
      db := tx;
      return Ok(Committing);
    }

    method CommitMaterialized(r: Id, e: EntryKey, materialized: Id) returns (out: Outcome<()>)
      requires Valid()
      modifies this
      ensures Valid()
      ensures Step(db, out) == MarkCommitMaterialized(old(db), r, e, materialized)
    {
      hide Inv, Sound;
      CommitMaterializedSound(db, r, e, materialized);
      SoundInv(db, MarkCommitMaterialized(db, r, e, materialized).after);
      if e !in db.commits || db.commits[e].release != r { return Err(InvalidState); }
      var commit := db.commits[e];
      if commit.state == Prepared && InState(db.releases, r, Committing) {
        commit := commit.(state := Materialized, materialized := Some(materialized));
        db := db.(commits := db.commits[e := commit]);
        return Ok(());
      }
      if commit.state == Materialized && commit.materialized == Some(materialized) { return Ok(()); }
      return Err(InvalidState);
    }

    /** Publishes the commits in the order the query lists them. */
    method CompleteRelease(r: Id) returns (out: Outcome<ReleaseState>, ghost order: seq<EntryKey>)
      requires Valid()
      modifies this
      ensures Valid()
      ensures IsListing(old(db).commits, r, order)
      ensures Step(db, out) == CompleteCommit(old(db), r, order)
    {
      hide Inv, Sound, PublishAll;
      var tx := db;
      var commits := List(CommitsOf(tx.commits, r));
      order := commits;
      CompleteSound(db, r, order);
      SoundInv(db, CompleteCommit(db, r, order).after);
      if r !in tx.releases { return Err(NotFound), order; }
      var release := tx.releases[r];
      if release.state == Ready { return Ok(Ready), order; }
      if release.state != Committing { return Err(InvalidState), order; }
      if |tx.pub.scenarios| != 0 { return Err(Conflict), order; }
      if OtherReady(tx.releases, r) { return Err(Conflict), order; }
      var entries := EntriesOf(tx.entries, r);
      if |entries| == 0 || |entries| != |CommitsOf(tx.commits, r)| { return Err(Invalid), order; }
      var published := PublishEach(tx, r, commits);
      if published.None? { return Err(Constraint), order; }
      tx := tx.(pub := published.value);
      tx := tx.(commits := CommitAll(tx.commits, r));
      tx := tx.(releases := tx.releases[r := release.(state := Ready)]);
      db := tx;
      return Ok(Ready), order;
    }
  }
}
