/** What each accepted step does to a release, and which releases can still become ready. */
module CatalogRoad {
  import opened Base
  import opened Scenarios
  import opened Catalog
  import opened CatalogSteps
  import opened CatalogPublication

  // ---- Steps ----

  lemma {:induction false} AddsOnly(entries: map<EntryKey, Entry>, r: Id, found: seq<Found>)
    requires DistinctFound(found) && forall e <- entries :: e.release != r
    ensures var after := AddEntries(entries, r, found);
            && after.Some? && (forall e <- entries :: e in after.value && after.value[e] == entries[e])
            && forall e <- after.value :: e in entries || (e.release == r && exists i | 0 <= i < |found| :: found[i].path == e.path)
  {
    if found != [] {
      var init, last := found[..|found| - 1], found[|found| - 1];
      AddsOnly(entries, r, init);
      assert forall i | 0 <= i < |init| :: found[i] == init[i];
      forall e | e in AddEntries(entries, r, found).value && e !in entries
        ensures e.release == r && exists i | 0 <= i < |found| :: found[i].path == e.path
      {
        if e != EntryKey(r, last.path) {
          var i :| 0 <= i < |init| && init[i].path == e.path;
          assert found[i].path == e.path;
        } else {
          assert found[|found| - 1].path == e.path;
        }
      }
    }
  }

  /** Every one of what was found, at its beginning. */
  ghost predicate HasFound(entries: map<EntryKey, Entry>, r: Id, found: seq<Found>) {
    forall i | 0 <= i < |found| ::
      EntryKey(r, found[i].path) in entries
      && entries[EntryKey(r, found[i].path)] == Entry(found[i].ref, found[i].content, Materializing, 1, None, None)
  }

  lemma {:induction false} AddsEach(entries: map<EntryKey, Entry>, r: Id, found: seq<Found>)
    requires AddEntries(entries, r, found).Some?
    ensures HasFound(AddEntries(entries, r, found).value, r, found)
  {
    if found != [] {
      var init := found[..|found| - 1];
      AddsEach(entries, r, init);
      assert forall i | 0 <= i < |init| :: found[i] == init[i];
    }
  }

  /** A pending release is installed with what was found, once and as a whole, unless its source names something twice. */
  lemma InstallsIff(ops: seq<Op>, r: Id, source: Id, found: seq<Found>)
    requires InState(After(Empty, ops).releases, r, Pending)
    ensures var c := After(Empty, ops);
            var step := InitializeRelease(c, r, source, found);
            && (step.out.Ok? <==> forall i, j | 0 <= i < j < |found| :: found[i].path != found[j].path && found[i].ref != found[j].ref)
            && (step.out.Ok? ==>
                  && step.out.value == Installing && step.after.releases == c.releases[r := c.releases[r].(source := source, state := Installing)]
                  && EntriesOf(step.after.entries, r) == (set i | 0 <= i < |found| :: EntryKey(r, found[i].path))
                  && HasFound(step.after.entries, r, found)
                  && forall e <- c.entries :: e in step.after.entries && step.after.entries[e] == c.entries[e])
  {
    hide After;
    EmptyInv();
    AfterSound(Empty, ops);
    var c := After(Empty, ops);
    PendingIsEmpty(c, r);
    if DistinctFound(found) {
      hide AddEntries, Inv;
      AddsOnly(c.entries, r, found);
      AddsEach(c.entries, r, found);
      var entries := AddEntries(c.entries, r, found).value;
      forall e | e in EntriesOf(entries, r) ensures e in (set i | 0 <= i < |found| :: EntryKey(r, found[i].path)) {
        var i :| 0 <= i < |found| && found[i].path == e.path;
        assert e == EntryKey(r, found[i].path);
      }
    }
  }

  lemma PendingIsEmpty(c: Catalog, r: Id)
    requires Inv(c) && InState(c.releases, r, Pending)
    ensures forall e <- c.entries :: e.release != r
  {
  }

  /** A release is created once, pending and at its first attempt. */
  lemma CreatedOnce(c: Catalog, r: Id)
    ensures var step := CreateRelease(c, r);
            && step.out == Ok(r !in c.releases) && r in step.after.releases
            && (r in c.releases ==> step.after == c)
            && (r !in c.releases ==> step.after == c.(releases := c.releases[r := ReleaseRow(Pending, 0, 1)]))
  {
  }

  /** Installing again changes nothing: it answers how far the release is, or that it has another source. */
  lemma InstallReplays(c: Catalog, r: Id, source: Id, found: seq<Found>)
    requires r in c.releases && c.releases[r].state != Pending && DistinctFound(found)
    ensures InitializeRelease(c, r, source, found)
            == (if c.releases[r].state in {Ready, Failed} || c.releases[r].source == source then Step(c, Ok(c.releases[r].state)) else Refuse(c, Conflict))
  {
  }

  /** A source that cannot be fetched is tried five times; then the release has failed. */
  lemma SourceFailureDecides(c: Catalog, r: Id)
    ensures var step := ReportSourceFailure(c, r);
            && (step.out.Ok? <==> InState(c.releases, r, Pending))
            && (step.out.Ok? ==>
                  && r in step.after.releases && step.out.value == step.after.releases[r].state
                  && step.after.releases[r].state == (if c.releases[r].attempt < 5 then Pending else Failed)
                  && (c.releases[r].attempt < 5 ==> step.after.releases[r].attempt == c.releases[r].attempt + 1)
                  && step.after.entries == c.entries && step.after.pub == c.pub)
  {
  }

  /** A release can be given up until it has ended; the finalizer does so only when trying again is no use. */
  lemma FailureEnds(c: Catalog, r: Id, onlyPending: bool, deterministic: bool)
    ensures var step := FailRelease(c, r, onlyPending);
            && (step.out.Ok? <==> r in c.releases && !c.releases[r].state.Terminal() && (onlyPending ==> c.releases[r].state == Pending))
            && (step.out.Ok? ==> step.after == c.(releases := c.releases[r := c.releases[r].(state := Failed)]))
    ensures var step := RecordFinalizerFailure(c, r, deterministic);
            && (step.out.Ok? <==> InState(c.releases, r, Installing) || InState(c.releases, r, Committing))
            && (step.out.Ok? ==> if deterministic then step.after == c.(releases := c.releases[r := c.releases[r].(state := Failed)]) else step.after == c)
  {
  }

  /** An entry is built with a runnable revision of itself and its content, once, while its release installs. */
  lemma EntryIsBuilt(c: Catalog, e: EntryKey, ref: RunnableRef)
    requires e in c.entries && c.entries[e].state == Materializing
    ensures var step := MarkEntryMaterialized(c, e, ref);
            && (step.out.Ok? <==>
                  && ref.id in c.runnables && c.runnables[ref.id] == RunnableRow(ref.digest, true, e, c.entries[e].content)
                  && InState(c.releases, e.release, Installing))
            && (step.out.Ok? ==>
                  step.after == c.(entries := c.entries[e := c.entries[e].(state := Verifying, version := c.entries[e].version + 1, runnable := Some(ref))]))
  {
  }

  /** It is verified by a passing report on that very revision. */
  lemma EntryIsVerified(c: Catalog, e: EntryKey, ref: ReportRef)
    requires e in c.entries && c.entries[e].state == Verifying
    ensures var step := MarkEntryVerified(c, e, ref);
            && (step.out.Ok? <==>
                  && c.entries[e].runnable.Some? && ref.id in c.reports
                  && c.reports[ref.id] == ReportRow(ref.digest, c.entries[e].runnable.value.digest, true)
                  && InState(c.releases, e.release, Installing))
            && (step.out.Ok? ==>
                  step.after == c.(entries := c.entries[e := c.entries[e].(state := ReadyToCommit, version := c.entries[e].version + 1, report := Some(ref))]))
  {
  }

  /** What comes again is taken note of, and changes nothing; anything else about an entry that far is refused. */
  lemma EntryReplays(c: Catalog, e: EntryKey, ref: RunnableRef, report: ReportRef)
    requires e in c.entries
    ensures c.entries[e].state != Materializing ==>
              MarkEntryMaterialized(c, e, ref)
              == (if c.entries[e].state == Verifying && c.entries[e].runnable == Some(ref) then Step(c, Ok(())) else Refuse(c, InvalidState))
    ensures c.entries[e].state != Verifying ==>
              MarkEntryVerified(c, e, report)
              == (if c.entries[e].state == ReadyToCommit && c.entries[e].report == Some(report) then Step(c, Ok(())) else Refuse(c, InvalidState))
  {
  }

  /** A prepared commit of a committing release is materialized once; again with the same directory changes nothing. */
  lemma CommitIsBuilt(c: Catalog, r: Id, e: EntryKey, materialized: Id)
    requires e in c.commits
    ensures var step, commit := MarkCommitMaterialized(c, r, e, materialized), c.commits[e];
            && (commit.release != r ==> step == Refuse(c, InvalidState))
            && (commit.release == r && commit.state == Prepared && InState(c.releases, r, Committing) ==>
                  step == Step(c.(commits := c.commits[e := commit.(state := Materialized, materialized := Some(materialized))]), Ok(())))
            && (commit.release == r && !(commit.state == Prepared && InState(c.releases, r, Committing)) ==>
                  step == (if commit.state == Materialized && commit.materialized == Some(materialized) then Step(c, Ok(())) else Refuse(c, InvalidState)))
  {
  }

  predicate SameName(a: Intent, b: Intent) { a.entry == b.entry || a.scenario == b.scenario || a.revision == b.revision || a.slug == b.slug }

  /** No two intents, and no intent and a commit, share an entry, a scenario, a revision or a slug. */
  ghost predicate AllNew(commits: map<EntryKey, Commit>, intents: seq<Intent>) {
    && (forall i, j | 0 <= i < j < |intents| :: !SameName(intents[i], intents[j]))
    && forall i, k | 0 <= i < |intents| && k in commits ::
         !SameName(intents[i], Intent(k, commits[k].scenario, commits[k].revision, commits[k].slug))
  }

  /** One prepared commit of the release for each intent, under its names, and the others as they were. */
  ghost predicate Intended(commits: map<EntryKey, Commit>, after: map<EntryKey, Commit>, r: Id, intents: seq<Intent>) {
    && (forall k <- commits :: k in after && after[k] == commits[k])
    && (forall i | 0 <= i < |intents| ::
          intents[i].entry in after
          && after[intents[i].entry] == Commit(r, intents[i].scenario, intents[i].revision, intents[i].slug, Prepared, None))
    && (forall k <- after :: k in commits || exists i | 0 <= i < |intents| :: intents[i].entry == k)
  }

  lemma IntendsOne(commits: map<EntryKey, Commit>, before: map<EntryKey, Commit>, r: Id, init: seq<Intent>, last: Intent)
    requires Intended(commits, before, r, init) && last.entry !in before
    ensures Intended(commits, before[last.entry := NewCommit(r, last)], r, init + [last])
  {
    var intents, after := init + [last], before[last.entry := NewCommit(r, last)];
    assert intents[|init|] == last && forall i | 0 <= i < |init| :: intents[i] == init[i];
    forall k | k in after && k !in commits ensures exists i | 0 <= i < |intents| :: intents[i].entry == k {
      if k in before {
        var i :| 0 <= i < |init| && init[i].entry == k;
        assert intents[i].entry == k;
      } else {
        assert intents[|init|].entry == k;
      }
    }
  }

  /** Adding one more is refused exactly when it shares a name with what is there. */
  lemma NewOne(commits: map<EntryKey, Commit>, before: map<EntryKey, Commit>, r: Id, init: seq<Intent>, last: Intent)
    requires AllNew(commits, init) && Intended(commits, before, r, init)
    ensures CanCommit(before, last) <==> AllNew(commits, init + [last])
  {
    var intents := init + [last];
    assert intents[|init|] == last && forall i | 0 <= i < |init| :: intents[i] == init[i];
    if CanCommit(before, last) {
      forall i | 0 <= i < |init| ensures !SameName(intents[i], last) { assert before[init[i].entry].scenario == init[i].scenario; }
      forall k | k in commits ensures !SameName(last, Intent(k, commits[k].scenario, commits[k].revision, commits[k].slug)) {
        assert before[k] == commits[k];
      }
    }
    if AllNew(commits, intents) {
      forall k | k in before
        ensures k != last.entry && before[k].scenario != last.scenario && before[k].revision != last.revision && before[k].slug != last.slug
      {
        if k in commits {
          assert !SameName(intents[|init|], Intent(k, commits[k].scenario, commits[k].revision, commits[k].slug));
        } else {
          var i :| 0 <= i < |init| && init[i].entry == k;
          assert !SameName(intents[i], intents[|init|]);
        }
      }
    }
  }

  lemma {:induction false} AddsIff(commits: map<EntryKey, Commit>, r: Id, intents: seq<Intent>)
    ensures AddCommits(commits, r, intents).Some? <==> AllNew(commits, intents)
    ensures AddCommits(commits, r, intents).Some? ==> Intended(commits, AddCommits(commits, r, intents).value, r, intents)
  {
    hide AllNew, Intended, CanCommit;
    if intents == [] {
      NothingIntended(commits, r);
    } else {
      var init, last := intents[..|intents| - 1], intents[|intents| - 1];
      AddsIff(commits, r, init);
      assert init + [last] == intents;
      if AllNew(commits, intents) { NewPrefix(commits, init, last); }
      if AllNew(commits, init) {
        NewOne(commits, AddCommits(commits, r, init).value, r, init, last);
        if AllNew(commits, intents) {
          NotThere(AddCommits(commits, r, init).value, last);
          IntendsOne(commits, AddCommits(commits, r, init).value, r, init, last);
        }
      }
    }
  }

  lemma NothingIntended(commits: map<EntryKey, Commit>, r: Id)
    ensures AllNew(commits, []) && Intended(commits, commits, r, [])
  {
  }

  lemma NotThere(commits: map<EntryKey, Commit>, i: Intent)
    requires CanCommit(commits, i)
    ensures i.entry !in commits
  {
  }

  lemma NewPrefix(commits: map<EntryKey, Commit>, init: seq<Intent>, last: Intent)
    requires AllNew(commits, init + [last])
    ensures AllNew(commits, init)
  {
    var intents := init + [last];
    assert forall i | 0 <= i < |init| :: intents[i] == init[i];
  }

  /** Committing begins exactly when every entry is ready and is named once, under names that nothing else has; asking
      again changes nothing. */
  lemma PrepareDecides(c: Catalog, r: Id, intents: seq<Intent>)
    requires r in c.releases
    ensures var step, state := PrepareCommit(c, r, intents), c.releases[r].state;
            && (state == Committing ==> step == Step(c, Ok(Committing)))
            && (state !in {Installing, Committing} ==> step == Refuse(c, InvalidState))
            && (state == Installing ==>
                  (step.out.Ok? <==>
                     && EntriesOf(c.entries, r) != {} && |intents| == |EntriesOf(c.entries, r)| && EntriesOf(c.entries, r) <= Named(intents)
                     && (forall e <- EntriesOf(c.entries, r) ::
                           c.entries[e].state == ReadyToCommit && c.entries[e].runnable.Some? && c.entries[e].report.Some?)
                     && AllNew(c.commits, intents)))
            && (state == Installing && step.out.Ok? ==>
                  && step.out.value == Committing && Intended(c.commits, step.after.commits, r, intents)
                  && step.after == c.(commits := step.after.commits, releases := c.releases[r := c.releases[r].(state := Committing)]))
  {
    hide AllNew, Intended, AddCommits, Named;
    AddsIff(c.commits, r, intents);
  }

  // ---- The road to readiness ----

  ghost predicate Leads(c: Catalog, t: Catalog) { exists ops :: After(c, ops) == t }

  lemma LeadsOn(c: Catalog, t: Catalog, op: Op)
    requires Leads(c, t)
    ensures Leads(c, Next(t, op))
  {
    hide Next;
    var ops :| After(c, ops) == t;
    assert (ops + [op])[..|ops|] == ops;
    assert After(c, ops + [op]) == Next(t, op);
  }

  lemma {:induction false} Unused(ids: set<Id>) returns (id: Id)
    ensures forall i <- ids :: i < id
  {
    if ids == {} {
      id := 0;
    } else {
      var i :| i in ids;
      var j := Unused(ids - {i});
      id := if i < j then j else i + 1;
      forall k | k in ids ensures k < id { if k != i { assert k in ids - {i}; } }
    }
  }

  /** Nothing is published yet, and no other release is ready. */
  ghost predicate Free(c: Catalog, r: Id) {
    c.pub.scenarios == map[] && forall q <- c.releases :: q != r ==> c.releases[q].state != Ready
  }

  ghost predicate On(c: Catalog, t: Catalog, r: Id, state: ReleaseState) {
    Leads(c, t) && Inv(t) && InState(t.releases, r, state) && Free(t, r) && (state != Pending ==> EntriesOf(t.entries, r) != {})
  }

  lemma GoesOn(c: Catalog, t: Catalog, r: Id, op: Op, from: ReleaseState, to: ReleaseState)
    requires On(c, t, r, from) && InState(Next(t, op).releases, r, to) && Free(Next(t, op), r)
    requires to != Pending ==> EntriesOf(Next(t, op).entries, r) != {}
    ensures On(c, Next(t, op), r, to)
  {
    hide Inv, Next, Leads, Free;
    NextSound(t, op);
    SoundIsInv(t, op);
    LeadsOn(c, t, op);
  }

  lemma SoundIsInv(t: Catalog, op: Op)
    requires Sound(t, Next(t, op))
    ensures Inv(Next(t, op))
  {
  }

  lemma OnFacts(c: Catalog, t: Catalog, r: Id, state: ReleaseState)
    requires On(c, t, r, state)
    ensures Inv(t) && InState(t.releases, r, state) && Free(t, r) && (state != Pending ==> EntriesOf(t.entries, r) != {})
  {
  }

  // ---- Installed ----

  lemma ToInstalling(c: Catalog, t: Catalog, r: Id) returns (u: Catalog)
    requires On(c, t, r, Pending)
    ensures On(c, u, r, Installing)
  {
    hide Inv, On;
    OnFacts(c, t, r, Pending);
    PendingIsEmpty(t, r);
    var found := [Found(0, 0, 0)];
    AddsOnly(t.entries, r, found);
    AddsEach(t.entries, r, found);
    var op := DoInitialize(r, 0, found);
    u := Next(t, op);
    assert EntryKey(r, found[0].path) in EntriesOf(u.entries, r);
    GoesOn(c, t, r, op, Pending, Installing);
  }

  // ---- Every entry ready ----

  function Unready(t: Catalog, r: Id): set<EntryKey> { set e | e in t.entries && e.release == r && t.entries[e].state != ReadyToCommit }

  lemma StoredOn(c: Catalog, t: Catalog, r: Id, op: Op) returns (u: Catalog)
    requires On(c, t, r, Installing) && (op.DoStoreRunnable? || op.DoStoreReport?)
    ensures u == Next(t, op) && On(c, u, r, Installing) && u.entries == t.entries && u.releases == t.releases
  {
    hide Inv, On;
    OnFacts(c, t, r, Installing);
    u := Next(t, op);
    GoesOn(c, t, r, op, Installing, Installing);
  }

  lemma MarkedOn(c: Catalog, t: Catalog, r: Id, op: Op, e: EntryKey, entry: Entry)
    requires On(c, t, r, Installing) && e in t.entries && Next(t, op) == t.(entries := t.entries[e := entry])
    ensures On(c, Next(t, op), r, Installing)
  {
    hide Inv, On, Next;
    OnFacts(c, t, r, Installing);
    assert EntriesOf(t.entries[e := entry], r) == EntriesOf(t.entries, r);
    GoesOn(c, t, r, op, Installing, Installing);
  }

  lemma EntryBuiltOn(c: Catalog, t: Catalog, r: Id, e: EntryKey) returns (u: Catalog)
    requires On(c, t, r, Installing) && e in t.entries && e.release == r && t.entries[e].state == Materializing
    ensures On(c, u, r, Installing) && e in u.entries && u.entries[e].state == Verifying
    ensures u.entries == t.entries[e := u.entries[e]]
  {
    hide Inv, On;
    OnFacts(c, t, r, Installing);
    var id := Unused(t.runnables.Keys);
    var ref := RunnableRef(id, 0);
    var a := StoredOn(c, t, r, DoStoreRunnable(id, RunnableRow(0, true, e, t.entries[e].content)));
    EntryIsBuilt(a, e, ref);
    u := Next(a, DoEntryMaterialized(e, ref));
    MarkedOn(c, a, r, DoEntryMaterialized(e, ref), e, u.entries[e]);
  }

  lemma EntryVerifiedOn(c: Catalog, t: Catalog, r: Id, e: EntryKey) returns (u: Catalog)
    requires On(c, t, r, Installing) && e in t.entries && e.release == r && t.entries[e].state == Verifying
    ensures On(c, u, r, Installing) && e in u.entries && u.entries[e].state == ReadyToCommit
    ensures u.entries == t.entries[e := u.entries[e]]
  {
    hide Inv, On;
    OnFacts(c, t, r, Installing);
    VerifyingIsBuilt(t, e);
    var id := Unused(t.reports.Keys);
    var ref := ReportRef(id, 0);
    var a := StoredOn(c, t, r, DoStoreReport(id, ReportRow(0, t.entries[e].runnable.value.digest, true)));
    EntryIsVerified(a, e, ref);
    u := Next(a, DoEntryVerified(e, ref));
    MarkedOn(c, a, r, DoEntryVerified(e, ref), e, u.entries[e]);
  }

  lemma VerifyingIsBuilt(t: Catalog, e: EntryKey)
    requires Inv(t) && e in t.entries && t.entries[e].state == Verifying
    ensures t.entries[e].runnable.Some?
  {
    assert EntryOk(t.runnables, t.reports, e, t.entries[e]);
  }

  lemma {:induction false} AllReady(c: Catalog, t: Catalog, r: Id) returns (u: Catalog)
    requires On(c, t, r, Installing)
    ensures On(c, u, r, Installing) && Unready(u, r) == {}
    decreases |Unready(t, r)|
  {
    hide On;
    if Unready(t, r) == {} {
      u := t;
    } else {
      var e :| e in Unready(t, r);
      var a := t;
      if t.entries[e].state == Materializing { a := EntryBuiltOn(c, t, r, e); }
      var b := EntryVerifiedOn(c, a, r, e);
      assert Unready(b, r) == Unready(t, r) - {e};
      u := AllReady(c, b, r);
    }
  }

  // ---- Prepared ----

  /** Intents for these entries, under names from this number on. */
  predicate From(intents: seq<Intent>, first: Id) {
    forall i | 0 <= i < |intents| :: intents[i].scenario == first + i && intents[i].revision == first + i && intents[i].slug == first + i
  }

  lemma {:induction false} Choose(entries: set<EntryKey>, first: Id) returns (intents: seq<Intent>)
    ensures Named(intents) == entries && |intents| == |entries| && From(intents, first)
    ensures forall i, j | 0 <= i < j < |intents| :: intents[i].entry != intents[j].entry
    decreases |entries|
  {
    if entries == {} {
      intents := [];
    } else {
      var e :| e in entries;
      var init := Choose(entries - {e}, first);
      var last := Intent(e, first + |init|, first + |init|, first + |init|);
      intents := init + [last];
      NamedMore(init, last);
      forall i, j | 0 <= i < j < |intents| ensures intents[i].entry != intents[j].entry {
        assert init[i].entry in Named(init);
      }
    }
  }

  ghost predicate NamedBelow(commits: map<EntryKey, Commit>, bound: Id) {
    forall k <- commits :: commits[k].scenario < bound && commits[k].revision < bound && commits[k].slug < bound
  }

  lemma {:induction false} Committable(commits: map<EntryKey, Commit>, r: Id, intents: seq<Intent>, first: Id)
    requires From(intents, first) && NamedBelow(commits, first)
    requires forall i | 0 <= i < |intents| :: intents[i].entry !in commits
    requires forall i, j | 0 <= i < j < |intents| :: intents[i].entry != intents[j].entry
    ensures var after := AddCommits(commits, r, intents);
            after.Some? && NamedBelow(after.value, first + |intents|)
            && forall e <- after.value :: e in commits || exists i | 0 <= i < |intents| :: intents[i].entry == e
  {
    if intents != [] {
      var init, last := intents[..|intents| - 1], intents[|intents| - 1];
      Committable(commits, r, init, first);
      var before := AddCommits(commits, r, init).value;
      assert forall i | 0 <= i < |init| :: init[i] == intents[i];
      forall e | e in AddCommits(commits, r, intents).value && e !in commits ensures exists i | 0 <= i < |intents| :: intents[i].entry == e {
        if e in before {
          var i :| 0 <= i < |init| && init[i].entry == e;
          assert intents[i].entry == e;
        } else {
          assert intents[|init|].entry == e;
        }
      }
    }
  }

  lemma Names(commits: map<EntryKey, Commit>) returns (first: Id)
    ensures NamedBelow(commits, first)
  {
    var scenarios, revisions, slugs :=
      (set k | k in commits :: commits[k].scenario), (set k | k in commits :: commits[k].revision), (set k | k in commits :: commits[k].slug);
    first := Unused(scenarios + revisions + slugs);
    forall k | k in commits ensures commits[k].scenario < first && commits[k].revision < first && commits[k].slug < first {
      assert commits[k].scenario in scenarios + revisions + slugs;
      assert commits[k].revision in scenarios + revisions + slugs;
      assert commits[k].slug in scenarios + revisions + slugs;
    }
  }

  lemma NoneCommittedYet(t: Catalog, r: Id)
    requires Inv(t) && InState(t.releases, r, Installing) && Unready(t, r) == {}
    ensures forall e <- EntriesOf(t.entries, r) :: e !in t.commits && Prepares(t.entries[e])
  {
    forall e | e in EntriesOf(t.entries, r) ensures e !in t.commits && Prepares(t.entries[e]) {
      Uncommitted(t, e);
      assert e !in Unready(t, r);
      assert EntryOk(t.runnables, t.reports, e, t.entries[e]);
    }
  }

  lemma ToCommitting(c: Catalog, t: Catalog, r: Id) returns (u: Catalog)
    requires On(c, t, r, Installing) && Unready(t, r) == {}
    ensures On(c, u, r, Committing)
  {
    hide Inv, On, Prepares, AddCommits, Named, NamedBelow, From;
    OnFacts(c, t, r, Installing);
    NoneCommittedYet(t, r);
    var first := Names(t.commits);
    var intents := Choose(EntriesOf(t.entries, r), first);
    forall i | 0 <= i < |intents| ensures intents[i].entry !in t.commits { NamesIt(intents, i); }
    Committable(t.commits, r, intents, first);
    var op := DoPrepare(r, intents);
    u := Next(t, op);
    GoesOn(c, t, r, op, Installing, Committing);
  }

  lemma NamesIt(intents: seq<Intent>, i: nat)
    requires i < |intents|
    ensures intents[i].entry in Named(intents)
  {
  }

  // ---- Every commit materialized ----

  function Unbuilt(t: Catalog, r: Id): set<EntryKey> { set e | e in t.commits && t.commits[e].release == r && t.commits[e].state == Prepared }

  lemma {:induction false} AllBuilt(c: Catalog, t: Catalog, r: Id) returns (u: Catalog)
    requires On(c, t, r, Committing)
    ensures On(c, u, r, Committing) && Unbuilt(u, r) == {}
    decreases |Unbuilt(t, r)|
  {
    hide On, Inv;
    if Unbuilt(t, r) == {} {
      u := t;
    } else {
      var e :| e in Unbuilt(t, r);
      OnFacts(c, t, r, Committing);
      CommitIsBuilt(t, r, e, 0);
      var op := DoCommitMaterialized(r, e, 0);
      var a := Next(t, op);
      GoesOn(c, t, r, op, Committing, Committing);
      assert Unbuilt(a, r) == Unbuilt(t, r) - {e};
      u := AllBuilt(c, a, r);
    }
  }

  // ---- Ready ----

  lemma {:induction false} Listing(entries: set<EntryKey>) returns (order: seq<EntryKey>)
    ensures (forall e :: e in order <==> e in entries) && forall i, j | 0 <= i < j < |order| :: order[i] != order[j]
    decreases |entries|
  {
    if entries == {} {
      order := [];
    } else {
      var e :| e in entries;
      var init := Listing(entries - {e});
      order := init + [e];
    }
  }

  lemma MaterializedNow(t: Catalog, r: Id)
    requires Inv(t) && InState(t.releases, r, Committing) && Unbuilt(t, r) == {}
    ensures forall e <- CommitsOf(t.commits, r) :: t.commits[e].state == Materialized
  {
    forall e | e in CommitsOf(t.commits, r) ensures t.commits[e].state == Materialized {
      assert CommitOk(t.releases, t.entries, e, t.commits[e]);
      assert e !in Unbuilt(t, r);
    }
  }

  lemma ToReady(c: Catalog, t: Catalog, r: Id) returns (u: Catalog)
    requires On(c, t, r, Committing) && Unbuilt(t, r) == {}
    ensures Leads(c, u) && InState(u.releases, r, Ready)
  {
    hide Inv, On, PublishAll;
    OnFacts(c, t, r, Committing);
    MaterializedNow(t, r);
    var order := Listing(CommitsOf(t.commits, r));
    CompletesExactly(t, r, order);
    var op := DoComplete(r, order);
    u := Next(t, op);
    LeadsOn(c, t, op) by { OnLeads(c, t, r); }
  }

  lemma OnLeads(c: Catalog, t: Catalog, r: Id)
    requires On(c, t, r, Committing)
    ensures Leads(c, t)
  {
  }

  // ---- Which releases can still become ready ----

  /** It has failed, another release is ready, something is published already, or its source was empty. */
  ghost predicate Blocked(c: Catalog, r: Id) {
    && r in c.releases && c.releases[r].state != Ready
    && (c.releases[r].state == Failed || !Free(c, r) || (c.releases[r].state == Installing && EntriesOf(c.entries, r) == {}))
  }

  lemma PublishedStays(c: Catalog, op: Op)
    requires c.pub.scenarios != map[]
    ensures Next(c, op).pub.scenarios != map[]
  {
    hide IsListing, PublishAll, AddCommits, AddEntries, Consistent, DistinctFound;
    var s :| s in c.pub.scenarios;
    assert s in Next(c, op).pub.scenarios;
  }

  lemma EmptyStays(c: Catalog, op: Op, r: Id)
    requires InState(c.releases, r, Installing) && EntriesOf(c.entries, r) == {}
    ensures InState(Next(c, op).releases, r, Failed) || (InState(Next(c, op).releases, r, Installing) && EntriesOf(Next(c, op).entries, r) == {})
  {
    hide IsListing, PublishAll, AddCommits, Consistent, SameForReleases, DistinctFound, AddEntries;
    if op.DoInitialize? && op.r != r && AddEntries(c.entries, op.r, op.found).Some? { OthersStay(c.entries, op.r, op.found, r); }
  }

  lemma {:induction false} OthersStay(entries: map<EntryKey, Entry>, q: Id, found: seq<Found>, r: Id)
    requires AddEntries(entries, q, found).Some? && q != r
    ensures EntriesOf(AddEntries(entries, q, found).value, r) == EntriesOf(entries, r)
  {
    if found != [] { OthersStay(entries, q, found[..|found| - 1], r); }
  }

  lemma BlockedStays(c: Catalog, op: Op, r: Id)
    requires Inv(c) && Blocked(c, r)
    ensures Blocked(Next(c, op), r)
  {
    hide Inv, Next;
    NextSound(c, op);
    Moved(c, op);
    var t := Next(c, op);
    BecomesReady(c, op, r);
    if c.pub.scenarios != map[] { PublishedStays(c, op); }
    if c.releases[r].state == Installing && EntriesOf(c.entries, r) == {} { EmptyStays(c, op, r); }
  }

  lemma Moved(c: Catalog, op: Op)
    requires Sound(c, Next(c, op))
    ensures ReleasesMove(c.releases, Next(c, op).releases)
  {
  }

  lemma BecomesReady(c: Catalog, op: Op, r: Id)
    requires Blocked(c, r) && r in Next(c, op).releases
    ensures Next(c, op).releases[r].state != Ready
  {
    hide IsListing, PublishAll, AddCommits, AddEntries, Consistent, SameForReleases, DistinctFound;
  }

  lemma {:induction false} BlockedForever(c: Catalog, ops: seq<Op>, r: Id)
    requires Inv(c) && Blocked(c, r)
    ensures Blocked(After(c, ops), r)
  {
    hide Inv, Next, Blocked;
    if ops != [] {
      BlockedForever(c, ops[..|ops| - 1], r);
      AfterSound(c, ops[..|ops| - 1]);
      BlockedStays(After(c, ops[..|ops| - 1]), ops[|ops| - 1], r);
    }
  }

  ghost predicate CanBecomeReady(c: Catalog, r: Id) { exists more :: InState(After(c, more).releases, r, Ready) }

  lemma StartsOn(c: Catalog, r: Id)
    requires Inv(c) && r in c.releases && c.releases[r].state != Ready && !Blocked(c, r)
    ensures On(c, c, r, c.releases[r].state) && c.releases[r].state in {Pending, Installing, Committing}
  {
    assert After(c, []) == c;
    if c.releases[r].state == Committing { assert EntriesOf(c.entries, r) != {}; }
  }

  /** In every run a release that is not ready can still become so exactly when it has not failed, nothing is published
      yet, no other release is ready, and its source was not empty: nothing else ever blocks it. */
  lemma CanBecomeReadyIff(ops: seq<Op>, r: Id)
    requires var c := After(Empty, ops); r in c.releases && c.releases[r].state != Ready
    ensures CanBecomeReady(After(Empty, ops), r) <==> !Blocked(After(Empty, ops), r)
  {
    hide After, Inv, On, Next;
    EmptyInv();
    AfterSound(Empty, ops);
    var c := After(Empty, ops);
    if Blocked(c, r) {
      forall more ensures !InState(After(c, more).releases, r, Ready) { BlockedForever(c, more, r); }
    } else {
      StartsOn(c, r);
      hide Blocked;
      var t, state := c, c.releases[r].state;
      if state == Pending { t := ToInstalling(c, t, r); state := Installing; }
      if state == Installing {
        t := AllReady(c, t, r);
        t := ToCommitting(c, t, r);
      }
      t := AllBuilt(c, t, r);
      var u := ToReady(c, t, r);
      var more :| After(c, more) == u;
    }
  }
}
