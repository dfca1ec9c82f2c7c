/** The published-scenario tables both publishers write: stable scenarios, their
    immutable revisions, and the constraints of the schema. */
module Scenarios {
  import opened Base

  datatype SourceKind = Authoring | Release

  datatype ScenarioState = Active | Deprecated

  datatype RevisionState = ActiveRevision | Superseded

  datatype RunnableRef = RunnableRef(id: Id, digest: Id)

  datatype ReportRef = ReportRef(id: Id, digest: Id)

  /** A materialized directory is named by the slug and the revision it holds. */
  datatype Path = Path(slug: Id, revision: Id)

  datatype Scenario = Scenario(
    kind: SourceKind, sourceRef: Id, owner: Option<Id>, state: ScenarioState, active: Id, slug: Id)

  datatype Revision = Revision(
    scenario: Id, kind: SourceKind, sourceRef: Id, sourceRevision: nat, base: Option<Id>, content: Id, slug: Id,
    path: Path, materialized: Id, runnable: RunnableRef, report: ReportRef, state: RevisionState)

  datatype Tables = Tables(scenarios: map<Id, Scenario>, revisions: map<Id, Revision>)

  const EmptyTables := Tables(map[], map[])

  /** Primary key, UNIQUE(source_slug) and UNIQUE(source_kind, source_ref). */
  predicate CanInsertScenario(t: Tables, id: Id, row: Scenario) {
    && id !in t.scenarios
    && forall k <- t.scenarios ::
         && t.scenarios[k].slug != row.slug
         && !(t.scenarios[k].kind == row.kind && t.scenarios[k].sourceRef == row.sourceRef)
  }

  /** Primary key, the scenario reference, UNIQUE(materialized_path),
      UNIQUE(scenario, content, materialized revision) and one active revision per scenario. */
  predicate CanInsertRevision(t: Tables, id: Id, row: Revision) {
    && id !in t.revisions
    && row.scenario in t.scenarios
    && forall k <- t.revisions ::
         && t.revisions[k].path != row.path
         && (t.revisions[k].scenario == row.scenario ==>
               && !(t.revisions[k].content == row.content && t.revisions[k].materialized == row.materialized)
               && !(t.revisions[k].state == ActiveRevision && row.state == ActiveRevision))
  }

  function InsertScenario(t: Tables, id: Id, row: Scenario): Tables {
    t.(scenarios := t.scenarios[id := row])
  }

  function InsertRevision(t: Tables, id: Id, row: Revision): Tables {
    t.(revisions := t.revisions[id := row])
  }

  /** A new scenario with its first revision; None when a constraint refuses it. */
  function PublishFirst(t: Tables, c: Id, scenario: Scenario, r: Id, revision: Revision): Option<Tables> {
    if !CanInsertScenario(t, c, scenario) then None
    else if !CanInsertRevision(InsertScenario(t, c, scenario), r, revision) then None
    else Some(InsertRevision(InsertScenario(t, c, scenario), r, revision))
  }

  function Supersede(t: Tables, r: Id): Tables
    requires r in t.revisions
  {
    t.(revisions := t.revisions[r := t.revisions[r].(state := Superseded)])
  }

  /** Supersede the active revision, insert its successor, refer to it. */
  function PublishNext(t: Tables, c: Id, r: Id, revision: Revision): Option<Tables>
    requires c in t.scenarios && t.scenarios[c].active in t.revisions
  {
    var superseded := Supersede(t, t.scenarios[c].active);
    if !CanInsertRevision(superseded, r, revision) then None
    else Some(InsertRevision(superseded, r, revision).(
              scenarios := t.scenarios[c := t.scenarios[c].(active := r)]))
  }

  function Deprecate(t: Tables, c: Id): Tables
    requires c in t.scenarios
  {
    t.(scenarios := t.scenarios[c := t.scenarios[c].(state := Deprecated)])
  }

  // ---- Lineage ----

  /** Position i of c's history: based on the position before it, active only when last. */
  ghost predicate Link(t: Tables, c: Id, chain: seq<Id>, i: nat)
    requires i < |chain|
  {
    && chain[i] in t.revisions
    && t.revisions[chain[i]].scenario == c
    && t.revisions[chain[i]].base == (if i == 0 then None else Some(chain[i - 1]))
    && (t.revisions[chain[i]].state == ActiveRevision <==> i == |chain| - 1)
  }

  ghost predicate Distinct(chain: seq<Id>) {
    forall i, j | 0 <= i < j < |chain| :: chain[i] != chain[j]
  }

  /** `chain` lists every revision of c once, oldest first, each based on the one before it;
      the scenario refers to the last one, which is the only active one. */
  ghost predicate IsLineage(t: Tables, c: Id, chain: seq<Id>)
    requires c in t.scenarios
  {
    && chain != []
    && Distinct(chain)
    && (forall i | 0 <= i < |chain| :: Link(t, c, chain, i))
    && (forall r <- t.revisions :: t.revisions[r].scenario == c ==> r in chain)
    && t.scenarios[c].active == chain[|chain| - 1]
  }

  ghost predicate HasLineage(t: Tables, c: Id)
    requires c in t.scenarios
  {
    exists chain :: IsLineage(t, c, chain)
  }

  ghost predicate NoOrphans(t: Tables) {
    forall r <- t.revisions ::
      && t.revisions[r].scenario in t.scenarios
      && t.revisions[r].kind == t.scenarios[t.revisions[r].scenario].kind
      && t.revisions[r].path == Path(t.revisions[r].slug, r)
  }

  ghost predicate SameKey(x: Scenario, y: Scenario) {
    x.slug == y.slug || (x.kind == y.kind && x.sourceRef == y.sourceRef)
  }

  ghost predicate UniqueKeys(t: Tables) {
    forall a, b | a in t.scenarios && b in t.scenarios && SameKey(t.scenarios[a], t.scenarios[b]) :: a == b
  }

  /** What both publishers keep: every scenario has one linear history, no revision is
      orphaned, and the unique keys hold. */
  ghost predicate Consistent(t: Tables) {
    (forall c <- t.scenarios :: HasLineage(t, c)) && NoOrphans(t) && UniqueKeys(t)
  }

  /** Published facts survive: no later step removes a revision or changes anything of it but its state. */
  ghost predicate Grows(t: Tables, u: Tables) {
    && (forall r <- t.revisions :: r in u.revisions && u.revisions[r] == t.revisions[r].(state := u.revisions[r].state))
    && (forall c <- t.scenarios ::
          c in u.scenarios && u.scenarios[c] == t.scenarios[c].(active := u.scenarios[c].active, state := u.scenarios[c].state))
  }

  /** A history is kept by a step that leaves its revisions and its active one alone and adds none to it. */
  lemma LineageFrame(t: Tables, u: Tables, c: Id)
    requires c in t.scenarios && c in u.scenarios && HasLineage(t, c)
    requires t.scenarios[c].active == u.scenarios[c].active
    requires forall r <- t.revisions :: t.revisions[r].scenario == c ==> r in u.revisions && u.revisions[r] == t.revisions[r]
    requires forall r <- u.revisions :: u.revisions[r].scenario == c ==> r in t.revisions && t.revisions[r].scenario == c
    ensures HasLineage(u, c)
  {
    var chain :| IsLineage(t, c, chain);
    forall i | 0 <= i < |chain| ensures Link(u, c, chain, i) {
      assert Link(t, c, chain, i);
    }
    assert IsLineage(u, c, chain);
  }

  lemma PublishFirstKeeps(t: Tables, c: Id, scenario: Scenario, r: Id, revision: Revision)
    requires Consistent(t) && PublishFirst(t, c, scenario, r, revision).Some?
    requires scenario.active == r && revision.scenario == c && revision.base == None && revision.state == ActiveRevision
    requires revision.kind == scenario.kind && revision.path == Path(revision.slug, r)
    ensures Consistent(PublishFirst(t, c, scenario, r, revision).value)
    ensures Grows(t, PublishFirst(t, c, scenario, r, revision).value)
  {
    var u := PublishFirst(t, c, scenario, r, revision).value;
    forall d | d in u.scenarios ensures HasLineage(u, d) {
      if d == c {
        assert Link(u, c, [r], 0);
        assert IsLineage(u, c, [r]);
      } else {
        LineageFrame(t, u, d);
      }
    }
  }

  lemma PublishNextExtends(t: Tables, c: Id, r: Id, revision: Revision)
    requires c in t.scenarios && HasLineage(t, c) && t.scenarios[c].active in t.revisions
    requires PublishNext(t, c, r, revision).Some?
    requires revision.scenario == c && revision.base == Some(t.scenarios[c].active) && revision.state == ActiveRevision
    ensures HasLineage(PublishNext(t, c, r, revision).value, c)
  {
    var u := PublishNext(t, c, r, revision).value;
    var chain :| IsLineage(t, c, chain);
    var longer := chain + [r];
    forall i | 0 <= i < |longer| ensures Link(u, c, longer, i) {
      if i < |chain| {
        assert Link(t, c, chain, i);
        assert chain[i] == t.scenarios[c].active <==> i == |chain| - 1;
      }
    }
    forall i | 0 <= i < |chain| ensures chain[i] != r {
      assert Link(t, c, chain, i);
    }
    assert Distinct(longer);
    assert IsLineage(u, c, longer);
  }

  lemma PublishNextGrows(t: Tables, c: Id, r: Id, revision: Revision)
    requires c in t.scenarios && t.scenarios[c].active in t.revisions
    requires PublishNext(t, c, r, revision).Some?
    ensures Grows(t, PublishNext(t, c, r, revision).value)
    ensures UniqueKeys(t) ==> UniqueKeys(PublishNext(t, c, r, revision).value)
  {
  }

  lemma PublishNextLineage(t: Tables, c: Id, r: Id, revision: Revision, d: Id)
    requires c in t.scenarios && HasLineage(t, c) && t.scenarios[c].active in t.revisions
    requires d in t.scenarios && HasLineage(t, d)
    requires PublishNext(t, c, r, revision).Some?
    requires revision.scenario == c && revision.base == Some(t.scenarios[c].active) && revision.state == ActiveRevision
    ensures HasLineage(PublishNext(t, c, r, revision).value, d)
  {
    if d == c {
      PublishNextExtends(t, c, r, revision);
    } else {
      OneActiveRevision(t, c);
      LineageFrame(t, PublishNext(t, c, r, revision).value, d);
    }
  }

  lemma PublishNextKeeps(t: Tables, c: Id, r: Id, revision: Revision)
    requires Consistent(t) && c in t.scenarios && t.scenarios[c].active in t.revisions
    requires PublishNext(t, c, r, revision).Some?
    requires revision.scenario == c && revision.base == Some(t.scenarios[c].active) && revision.state == ActiveRevision
    requires revision.kind == t.scenarios[c].kind && revision.path == Path(revision.slug, r)
    ensures Consistent(PublishNext(t, c, r, revision).value)
  {
    PublishNextGrows(t, c, r, revision);
    forall d | d in t.scenarios ensures HasLineage(PublishNext(t, c, r, revision).value, d) {
      PublishNextLineage(t, c, r, revision, d);
    }
    assert PublishNext(t, c, r, revision).value.scenarios.Keys == t.scenarios.Keys;
  }

  lemma DeprecateKeeps(t: Tables, c: Id)
    requires Consistent(t) && c in t.scenarios
    ensures Consistent(Deprecate(t, c))
    ensures Grows(t, Deprecate(t, c))
  {
    forall d | d in Deprecate(t, c).scenarios ensures HasLineage(Deprecate(t, c), d) {
      LineageFrame(t, Deprecate(t, c), d);
    }
  }

  /** Of all revisions ever published on one base, there is only one. */
  lemma OneRevisionPerBase(t: Tables, a: Id, b: Id)
    requires Consistent(t) && a in t.revisions && b in t.revisions
    requires t.revisions[a].scenario == t.revisions[b].scenario && t.revisions[a].base == t.revisions[b].base
    ensures a == b
  {
    var chain :| IsLineage(t, t.revisions[a].scenario, chain);
    var i :| 0 <= i < |chain| && chain[i] == a;
    var j :| 0 <= j < |chain| && chain[j] == b;
    assert Link(t, t.revisions[a].scenario, chain, i) && Link(t, t.revisions[a].scenario, chain, j);
    if i > 0 && j > 0 {
      assert chain[i - 1] == chain[j - 1];
    }
  }

  /** Exactly one revision of a scenario is active: the one the scenario refers to. */
  lemma OneActiveRevision(t: Tables, c: Id)
    requires c in t.scenarios && HasLineage(t, c)
    ensures t.scenarios[c].active in t.revisions && t.revisions[t.scenarios[c].active].scenario == c
    ensures forall r <- t.revisions :: t.revisions[r].scenario == c ==>
              (t.revisions[r].state == ActiveRevision <==> r == t.scenarios[c].active)
  {
    var chain :| IsLineage(t, c, chain);
    assert Link(t, c, chain, |chain| - 1);
    forall r | r in t.revisions && t.revisions[r].scenario == c
      ensures t.revisions[r].state == ActiveRevision <==> r == t.scenarios[c].active
    {
      var i :| 0 <= i < |chain| && chain[i] == r;
      assert Link(t, c, chain, i);
    }
  }
}
