/** Catalog releases: many entries built one by one, published together or not at all. */
module Catalog {
  import opened Base
  import opened Scenarios

  datatype ReleaseState = Pending | Installing | Committing | Ready | Failed
  {
    predicate Terminal() { Ready? || Failed? }
  }

  /** Release identities are digests of their bundles. */
  datatype ReleaseRow = ReleaseRow(state: ReleaseState, source: Id, attempt: nat)

  const MaxSourceAttempts: nat := 5

  /** An entry's identity is a digest of its release and its path in the source. */
  datatype EntryKey = EntryKey(release: Id, path: Id)

  datatype EntryState = Materializing | Verifying | ReadyToCommit

  datatype Entry = Entry(
    ref: Id, content: Id, state: EntryState, version: nat, runnable: Option<RunnableRef>, report: Option<ReportRef>)

  datatype CommitState = Prepared | Materialized | Committed

  /** The identities an entry will be published under. */
  datatype Intent = Intent(entry: EntryKey, scenario: Id, revision: Id, slug: Id)

  /** An intent and how far it got. Its key is the entry, of which there is one commit at most. */
  datatype Commit = Commit(release: Id, scenario: Id, revision: Id, slug: Id, state: CommitState, materialized: Option<Id>)

  datatype RunnableRow = RunnableRow(digest: Id, operations: bool, contentId: EntryKey, content: Id)

  datatype ReportRow = ReportRow(digest: Id, revisionDigest: Id, passed: bool)

  datatype Catalog = Catalog(
    releases: map<Id, ReleaseRow>, entries: map<EntryKey, Entry>, commits: map<EntryKey, Commit>,
    runnables: map<Id, RunnableRow>, reports: map<Id, ReportRow>, pub: Tables)

  const Empty := Catalog(map[], map[], map[], map[], map[], EmptyTables)

  datatype Step<+T> = Step(after: Catalog, out: Outcome<T>)

  function Refuse<T>(c: Catalog, error: Error): Step<T> { Step(c, Err(error)) }

  predicate InState(releases: map<Id, ReleaseRow>, r: Id, state: ReleaseState) { r in releases && releases[r].state == state }

  function Enter(releases: map<Id, ReleaseRow>, r: Id, state: ReleaseState): map<Id, ReleaseRow>
    requires r in releases
  {
    releases[r := releases[r].(state := state)]
  }

  function EntriesOf(entries: map<EntryKey, Entry>, r: Id): set<EntryKey> { set e | e in entries && e.release == r }

  function CommitsOf(commits: map<EntryKey, Commit>, r: Id): set<EntryKey> { set e | e in commits && commits[e].release == r }

  // ---- Runnable records, written by their own repository ----

  function StoreRunnable(c: Catalog, id: Id, row: RunnableRow): Step<()> {
    if id in c.runnables then Refuse(c, Constraint) else Step(c.(runnables := c.runnables[id := row]), Ok(()))
  }

  function StoreReport(c: Catalog, id: Id, row: ReportRow): Step<()> {
    if id in c.reports then Refuse(c, Constraint) else Step(c.(reports := c.reports[id := row]), Ok(()))
  }

  // ---- Releases ----

  function CreateRelease(c: Catalog, r: Id): Step<bool> {
    if r in c.releases then Step(c, Ok(false)) else Step(c.(releases := c.releases[r := ReleaseRow(Pending, 0, 1)]), Ok(true))
  }

  /** One entry of a release's source. */
  datatype Found = Found(path: Id, ref: Id, content: Id)

  predicate DistinctFound(found: seq<Found>) {
    forall i, j | 0 <= i < j < |found| :: found[i].path != found[j].path && found[i].ref != found[j].ref
  }

  function NewEntry(f: Found): Entry { Entry(f.ref, f.content, Materializing, 1, None, None) }

  /** The entries in order; None when one of them is there already. */
  function AddEntries(entries: map<EntryKey, Entry>, r: Id, found: seq<Found>): Option<map<EntryKey, Entry>> {
    if found == [] then Some(entries)
    else
      var last := found[|found| - 1];
      match AddEntries(entries, r, found[..|found| - 1])
      case None => None
      case Some(before) => if EntryKey(r, last.path) in before then None else Some(before[EntryKey(r, last.path) := NewEntry(last)])
  }

  function InitializeRelease(c: Catalog, r: Id, source: Id, found: seq<Found>): Step<ReleaseState> {
    if !DistinctFound(found) then Refuse(c, Invalid)
    else if r !in c.releases then Refuse(c, NotFound)
    else if c.releases[r].state.Terminal() then Step(c, Ok(c.releases[r].state))
    else if c.releases[r].state != Pending then
      if c.releases[r].source != source then Refuse(c, Conflict) else Step(c, Ok(c.releases[r].state))
    else match AddEntries(c.entries, r, found)
      case None => Refuse(c, Constraint)
      case Some(entries) =>
        Step(c.(entries := entries, releases := c.releases[r := c.releases[r].(source := source, state := Installing)]), Ok(Installing))
  }

  /** Fetching the source failed: another attempt, or the end of the release. */
  function ReportSourceFailure(c: Catalog, r: Id): Step<ReleaseState> {
    if r !in c.releases then Refuse(c, NotFound)
    else if c.releases[r].state != Pending then Refuse(c, InvalidState)
    else
      var row := c.releases[r];
      var next := if row.attempt >= MaxSourceAttempts then row.(state := Failed) else row.(attempt := row.attempt + 1);
      Step(c.(releases := c.releases[r := next]), Ok(next.state))
  }

  function FailRelease(c: Catalog, r: Id, onlyPending: bool): Step<()> {
    if r !in c.releases || c.releases[r].state.Terminal() || (onlyPending && c.releases[r].state != Pending) then Refuse(c, InvalidState)
    else Step(c.(releases := Enter(c.releases, r, Failed)), Ok(()))
  }

  function RecordFinalizerFailure(c: Catalog, r: Id, deterministic: bool): Step<()> {
    if r !in c.releases then Refuse(c, NotFound)
    else if c.releases[r].state != Installing && c.releases[r].state != Committing then Refuse(c, InvalidState)
    else Step(c.(releases := if deterministic then Enter(c.releases, r, Failed) else c.releases), Ok(()))
  }

  // ---- Entries ----

  predicate RunnableOf(runnables: map<Id, RunnableRow>, e: EntryKey, content: Id, ref: RunnableRef) {
    ref.id in runnables && runnables[ref.id] == RunnableRow(ref.digest, true, e, content)
  }

  predicate ReportOf(reports: map<Id, ReportRow>, revision: RunnableRef, ref: ReportRef) {
    ref.id in reports && reports[ref.id] == ReportRow(ref.digest, revision.digest, true)
  }

  function MarkEntryMaterialized(c: Catalog, e: EntryKey, ref: RunnableRef): Step<()> {
    if e !in c.entries then Refuse(c, NotFound)
    else
      var entry := c.entries[e];
      if entry.state == Verifying && entry.runnable == Some(ref) then Step(c, Ok(()))
      else if entry.state != Materializing then Refuse(c, InvalidState)
      else if !RunnableOf(c.runnables, e, entry.content, ref) then Refuse(c, Invalid)
      else if !InState(c.releases, e.release, Installing) then Refuse(c, InvalidState)
      else Step(c.(entries := c.entries[e := entry.(state := Verifying, version := entry.version + 1, runnable := Some(ref))]), Ok(()))
  }

  function MarkEntryVerified(c: Catalog, e: EntryKey, ref: ReportRef): Step<()> {
    if e !in c.entries then Refuse(c, NotFound)
    else
      var entry := c.entries[e];
      if entry.state == ReadyToCommit && entry.report == Some(ref) then Step(c, Ok(()))
      else if entry.state != Verifying || entry.runnable.None? then Refuse(c, InvalidState)
      else if !ReportOf(c.reports, entry.runnable.value, ref) then Refuse(c, Invalid)
      else if !InState(c.releases, e.release, Installing) then Refuse(c, InvalidState)
      else Step(c.(entries := c.entries[e := entry.(state := ReadyToCommit, version := entry.version + 1, report := Some(ref))]), Ok(()))
  }

  // ---- Committing ----

  predicate Prepares(entry: Entry) { entry.state == ReadyToCommit && entry.runnable.Some? && entry.report.Some? }

  /** UNIQUE(entry), UNIQUE(scenario), UNIQUE(scenario revision), UNIQUE(slug). */
  predicate CanCommit(commits: map<EntryKey, Commit>, i: Intent) {
    && i.entry !in commits
    && forall k <- commits :: commits[k].scenario != i.scenario && commits[k].revision != i.revision && commits[k].slug != i.slug
  }

  function NewCommit(r: Id, i: Intent): Commit { Commit(r, i.scenario, i.revision, i.slug, Prepared, None) }

  function AddCommits(commits: map<EntryKey, Commit>, r: Id, intents: seq<Intent>): Option<map<EntryKey, Commit>> {
    if intents == [] then Some(commits)
    else
      var last := intents[|intents| - 1];
      match AddCommits(commits, r, intents[..|intents| - 1])
      case None => None
      case Some(before) => if !CanCommit(before, last) then None else Some(before[last.entry := NewCommit(r, last)])
  }

  function Named(intents: seq<Intent>): set<EntryKey> { set i | 0 <= i < |intents| :: intents[i].entry }

  function PrepareCommit(c: Catalog, r: Id, intents: seq<Intent>): Step<ReleaseState> {
    var entries := EntriesOf(c.entries, r);
    if r !in c.releases then Refuse(c, NotFound)
    else if c.releases[r].state == Committing then Step(c, Ok(Committing))
    else if c.releases[r].state != Installing then Refuse(c, InvalidState)
    else if entries == {} || |entries| != |intents| then Refuse(c, Invalid)
    else if exists e <- entries :: !Prepares(c.entries[e]) then Refuse(c, InvalidState)
    else match AddCommits(c.commits, r, intents)
      case None => Refuse(c, Constraint)
      case Some(commits) =>
        if !(entries <= Named(intents)) then Refuse(c, Invalid)
        else Step(c.(commits := commits, releases := Enter(c.releases, r, Committing)), Ok(Committing))
  }

  function MarkCommitMaterialized(c: Catalog, r: Id, e: EntryKey, materialized: Id): Step<()> {
    if e !in c.commits || c.commits[e].release != r then Refuse(c, InvalidState)
    else
      var commit := c.commits[e];
      if commit.state == Prepared && InState(c.releases, r, Committing) then
        Step(c.(commits := c.commits[e := commit.(state := Materialized, materialized := Some(materialized))]), Ok(()))
      else if commit.state == Materialized && commit.materialized == Some(materialized) then Step(c, Ok(()))
      else Refuse(c, InvalidState)
  }

  function StableScenario(commit: Commit, entry: Entry): Scenario {
    Scenario(Release, entry.ref, None, Active, commit.revision, commit.slug)
  }

  function ReleasedRevision(commit: Commit, entry: Entry): Revision
    requires entry.runnable.Some? && entry.report.Some? && commit.materialized.Some?
  {
    Revision(commit.scenario, Release, entry.ref, entry.content, None, entry.content, commit.slug, Path(commit.slug, commit.revision),
             commit.materialized.value, entry.runnable.value, entry.report.value, ActiveRevision)
  }

  /** What must hold of a commit when its release is completed. */
  predicate Complete(c: Catalog, r: Id, e: EntryKey) {
    && e in c.commits && e in c.entries && e.release == r
    && c.commits[e].state == Materialized && c.commits[e].materialized.Some? && Prepares(c.entries[e])
    && RunnableOf(c.runnables, e, c.entries[e].content, c.entries[e].runnable.value)
    && ReportOf(c.reports, c.entries[e].runnable.value, c.entries[e].report.value)
  }

  /** Publish the commits in the order they are listed; None at the first that is incomplete or refused. */
  function PublishAll(c: Catalog, r: Id, order: seq<EntryKey>): Option<Tables> {
    if order == [] then Some(c.pub)
    else
      var e := order[|order| - 1];
      match PublishAll(c, r, order[..|order| - 1])
      case None => None
      case Some(pub) =>
        if !Complete(c, r, e) then None
        else PublishFirst(pub, c.commits[e].scenario, StableScenario(c.commits[e], c.entries[e]),
                          c.commits[e].revision, ReleasedRevision(c.commits[e], c.entries[e]))
  }

  function CommitAll(commits: map<EntryKey, Commit>, r: Id): map<EntryKey, Commit> {
    map e | e in commits :: if commits[e].release == r && commits[e].state == Materialized then commits[e].(state := Committed) else commits[e]
  }

  /** A listing of a release's commits. */
  ghost predicate IsListing(commits: map<EntryKey, Commit>, r: Id, order: seq<EntryKey>) {
    (forall e :: e in order <==> e in CommitsOf(commits, r)) && forall i, j | 0 <= i < j < |order| :: order[i] != order[j]
  }

  predicate OtherReady(releases: map<Id, ReleaseRow>, r: Id) { exists q <- releases :: q != r && releases[q].state == Ready }

  function CompleteCommit(c: Catalog, r: Id, order: seq<EntryKey>): Step<ReleaseState>
  {
    if r !in c.releases then Refuse(c, NotFound)
    else if c.releases[r].state == Ready then Step(c, Ok(Ready))
    else if c.releases[r].state != Committing then Refuse(c, InvalidState)
    else if c.pub.scenarios != map[] || OtherReady(c.releases, r) then Refuse(c, Conflict)
    else if EntriesOf(c.entries, r) == {} || |EntriesOf(c.entries, r)| != |CommitsOf(c.commits, r)| then Refuse(c, Invalid)
    else match PublishAll(c, r, order)
      case None => Refuse(c, Constraint)
      case Some(pub) =>
        Step(c.(pub := pub, commits := CommitAll(c.commits, r), releases := Enter(c.releases, r, Ready)), Ok(Ready))
  }

  // ---- The other publisher ----

  predicate SameForReleases(pub: Tables, next: Tables) {
    && (forall s <- next.scenarios :: next.scenarios[s].kind == Release ==> s in pub.scenarios && pub.scenarios[s] == next.scenarios[s])
    && (forall r <- next.revisions :: next.revisions[r].kind == Release ==> r in pub.revisions && pub.revisions[r] == next.revisions[r])
    && (forall s <- pub.scenarios :: s in next.scenarios && (pub.scenarios[s].kind == Release ==> next.scenarios[s] == pub.scenarios[s]))
    && (forall r <- pub.revisions :: r in next.revisions && (pub.revisions[r].kind == Release ==> next.revisions[r] == pub.revisions[r]))
  }

  /** Authors publish and deprecate their own scenarios beside the catalog. */
  ghost function AuthorPublishes(c: Catalog, next: Tables): Step<()> {
    if !SameForReleases(c.pub, next) || !Consistent(next) then Refuse(c, Invalid) else Step(c.(pub := next), Ok(()))
  }

  // ---- Runs ----

  datatype Op =
    | DoStoreRunnable(id: Id, runnable: RunnableRow)
    | DoStoreReport(id: Id, report: ReportRow)
    | DoCreate(r: Id)
    | DoInitialize(r: Id, source: Id, found: seq<Found>)
    | DoSourceFailure(r: Id)
    | DoFail(r: Id, onlyPending: bool)
    | DoFinalizerFailure(r: Id, deterministic: bool)
    | DoEntryMaterialized(e: EntryKey, ref: RunnableRef)
    | DoEntryVerified(e: EntryKey, passed: ReportRef)
    | DoPrepare(r: Id, intents: seq<Intent>)
    | DoCommitMaterialized(r: Id, e: EntryKey, materialized: Id)
    | DoComplete(r: Id, order: seq<EntryKey>)
    | DoAuthorPublishes(next: Tables)

  ghost function Next(c: Catalog, op: Op): Catalog {
    match op
    case DoStoreRunnable(id, row) => StoreRunnable(c, id, row).after
    case DoStoreReport(id, row) => StoreReport(c, id, row).after
    case DoCreate(r) => CreateRelease(c, r).after
    case DoInitialize(r, source, found) => InitializeRelease(c, r, source, found).after
    case DoSourceFailure(r) => ReportSourceFailure(c, r).after
    case DoFail(r, onlyPending) => FailRelease(c, r, onlyPending).after
    case DoFinalizerFailure(r, deterministic) => RecordFinalizerFailure(c, r, deterministic).after
    case DoEntryMaterialized(e, ref) => MarkEntryMaterialized(c, e, ref).after
    case DoEntryVerified(e, ref) => MarkEntryVerified(c, e, ref).after
    case DoPrepare(r, intents) => PrepareCommit(c, r, intents).after
    case DoCommitMaterialized(r, e, materialized) => MarkCommitMaterialized(c, r, e, materialized).after
    case DoComplete(r, order) => if IsListing(c.commits, r, order) then CompleteCommit(c, r, order).after else c
    case DoAuthorPublishes(next) => AuthorPublishes(c, next).after
  }

  ghost function After(c: Catalog, ops: seq<Op>): Catalog {
    if ops == [] then c else Next(After(c, ops[..|ops| - 1]), ops[|ops| - 1])
  }
}
