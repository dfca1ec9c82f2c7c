/** The published histories, and the runs behind the history variables. */
module GenerationLineage {
  import opened Base
  import opened Scenarios
  import opened Generation
  import opened GenerationInvariants
  import opened GenerationRuns
  import opened GenerationTheorems

  /** Every scenario has one linear history covering all its revisions, and exactly one active
      revision: the last of it, which the scenario refers to. */
  lemma ScenarioHistory(ops: seq<Op>, c: Id)
    requires c in Reached(ops).pub.scenarios
    ensures var t := Reached(ops).pub;
            && HasLineage(t, c)
            && t.scenarios[c].active in t.revisions && t.revisions[t.scenarios[c].active].scenario == c
            && (forall r <- t.revisions :: t.revisions[r].scenario == c ==>
                  (t.revisions[r].state == ActiveRevision <==> r == t.scenarios[c].active))
  {
    hide Reached;
    RunSound(ops);
    OneActiveRevision(Reached(ops).pub, c);
  }

  ghost predicate IsPublished(s: State, w: Id) { w in s.workflows && s.workflows[w].state == Published }

  /** The revision a published workflow stands for, and where its session put it. */
  lemma PublishedPlace(ops: seq<Op>, w: Id) returns (r: Id)
    requires IsPublished(Reached(ops), w)
    ensures var s := Reached(ops);
            && r in s.pub.revisions && s.pub.revisions[r].kind == Authoring
            && s.pub.revisions[r].sourceRef == s.workflows[w].session && s.pub.revisions[r].sourceRevision == s.workflows[w].plan
            && FromSession(s.sessions, s.pub.scenarios, s.pub.revisions[r]) && s.workflows[w].session in s.sessions
  {
    hide Reached, Approved, Built, Passed, HasOrigin;
    PublishedIsVerified(ops, w);
    RunSound(ops);
    var s := Reached(ops);
    assert Row(s, w);
    r := s.candidates[s.workflows[w].candidate.value].publication.value.revision;
  }

  lemma SamePlace(t: Tables, sessions: map<Id, Session>, a: Id, b: Id)
    requires Consistent(t) && a in t.revisions && b in t.revisions
    requires t.revisions[a].kind == Authoring && t.revisions[b].kind == Authoring
    requires FromSession(sessions, t.scenarios, t.revisions[a]) && FromSession(sessions, t.scenarios, t.revisions[b])
    requires || t.revisions[a].sourceRef == t.revisions[b].sourceRef
             || (sessions[t.revisions[a].sourceRef].target.Some?
                 && sessions[t.revisions[a].sourceRef].target == sessions[t.revisions[b].sourceRef].target)
    ensures a == b
  {
    assert t.revisions[a].scenario == t.revisions[b].scenario;
    OneRevisionPerBase(t, a, b);
  }

  lemma SameOrigin(ops: seq<Op>, a: Id, b: Id)
    requires IsPublished(Reached(ops), a) && IsPublished(Reached(ops), b)
    requires var s := Reached(ops);
             s.workflows[a].session in s.sessions && s.workflows[b].session in s.sessions &&
             (|| s.workflows[a].session == s.workflows[b].session
              || (s.sessions[s.workflows[a].session].target.Some?
                  && s.sessions[s.workflows[a].session].target == s.sessions[s.workflows[b].session].target))
    ensures a == b
  {
    hide Reached, FromSession, Rows, Consistent;
    var ra := PublishedPlace(ops, a);
    var rb := PublishedPlace(ops, b);
    RunSound(ops);
    SamePlace(Reached(ops).pub, Reached(ops).sessions, ra, rb);
  }

  /** A session publishes at most once, even if its plan is revised and generated again. */
  lemma SessionPublishesOnce(ops: seq<Op>, a: Id, b: Id)
    requires IsPublished(Reached(ops), a) && IsPublished(Reached(ops), b)
    requires Reached(ops).workflows[a].session == Reached(ops).workflows[b].session
    ensures a == b
  {
    hide Reached;
    RunSound(ops);
    assert Row(Reached(ops), a) && Row(Reached(ops), b);
    SameOrigin(ops, a, b);
  }

  /** Of any number of sessions opened on the same active revision, at most one publishes. */
  lemma BasePublishesOnce(ops: seq<Op>, a: Id, b: Id)
    requires IsPublished(Reached(ops), a) && IsPublished(Reached(ops), b)
    requires var s := Reached(ops);
             s.workflows[a].session in s.sessions && s.workflows[b].session in s.sessions &&
             s.sessions[s.workflows[a].session].target.Some? &&
             s.sessions[s.workflows[a].session].target == s.sessions[s.workflows[b].session].target
    ensures a == b
  {
    hide Reached;
    SameOrigin(ops, a, b);
  }

  /** Published revisions are forever, and keep everything but their state. */
  lemma PublishedIsForever(ops: seq<Op>, more: seq<Op>, r: Id)
    requires r in Reached(ops).pub.revisions
    ensures r in After(Reached(ops), more).pub.revisions
    ensures After(Reached(ops), more).pub.revisions[r]
            == Reached(ops).pub.revisions[r].(state := After(Reached(ops), more).pub.revisions[r].state)
  {
    hide Reached, After, Inv;
    RunSound(ops);
    AfterSound(Reached(ops), more);
  }

  // ---- The verdicts recorded are the judgements that took effect ----

  ghost predicate GaveVerdict(s: State, op: Op, run: Id, v: Verdict) {
    && op.Agent? && op.a.Judges? && op.a.run == run && op.a.approved == v.approved && op.a.claim.workflow == v.workflow
    && FinalizeJudgement(s, op.a.claim, run, v.approved, op.a.feedback, op.a.now).out.Ok?
    && v.workflow in s.workflows && s.workflows[v.workflow].candidate == Some(v.candidate)
  }

  lemma WritersGiveNone(s: State, op: WriterOp)
    ensures NextWriter(s, op).verdicts == s.verdicts
  {
    hide NextWriter;
    WriterWrites(s, op);
  }

  lemma AgentsGiveNone(s: State, op: AgentOp)
    requires !op.Judges?
    ensures NextAgent(s, op).verdicts == s.verdicts
  {
  }

  lemma AuthorsGiveNone(s: State, op: AuthorOp)
    ensures NextAuthor(s, op).verdicts == s.verdicts
  {
  }

  lemma SpacesGiveNone(s: State, op: SpaceOp)
    ensures NextSpace(s, op).verdicts == s.verdicts
  {
    hide NextSpace;
    SpaceWrites(s, op);
  }

  lemma JudgementGives(s: State, claim: Claim, run: Id, approved: bool, feedback: string, now: Time, r: Id)
    requires r in FinalizeJudgement(s, claim, run, approved, feedback, now).after.verdicts
    ensures var v := FinalizeJudgement(s, claim, run, approved, feedback, now).after.verdicts[r];
            (r in s.verdicts && s.verdicts[r] == v) || GaveVerdict(s, Agent(Judges(claim, run, approved, feedback, now)), r, v)
  {
  }

  lemma VerdictStep(s: State, op: Op, run: Id)
    requires run in Next(s, op).verdicts
    ensures (run in s.verdicts && s.verdicts[run] == Next(s, op).verdicts[run])
            || GaveVerdict(s, op, run, Next(s, op).verdicts[run])
  {
    hide NextWriter, NextAuthor, NextSpace, FinalizeJudgement, GaveVerdict;
    match op {
      case Writer(w) => WritersGiveNone(s, w);
      case Author(u) => AuthorsGiveNone(s, u);
      case Space(p) => SpacesGiveNone(s, p);
      case Agent(a) =>
        if a.Judges? { JudgementGives(s, a.claim, a.run, a.approved, a.feedback, a.now, run); } else { AgentsGiveNone(s, a); }
    }
  }

  /** An approval on record was given by a judge run that held the lease when it ended. */
  lemma {:induction false} VerdictGiven(ops: seq<Op>, run: Id)
    requires run in Reached(ops).verdicts
    ensures exists i | 0 <= i < |ops| :: GaveVerdict(Reached(ops[..i]), ops[i], run, Reached(ops).verdicts[run])
  {
    hide Next, GaveVerdict;
    var n := |ops| - 1;
    if ops != [] {
      VerdictStep(Reached(ops[..n]), ops[n], run);
      if !GaveVerdict(Reached(ops[..n]), ops[n], run, Reached(ops).verdicts[run]) {
        VerdictGiven(ops[..n], run);
        var i :| 0 <= i < n && GaveVerdict(Reached(ops[..n][..i]), ops[..n][i], run, Reached(ops).verdicts[run]);
        assert ops[..n][..i] == ops[..i];
      }
    }
  }
}
