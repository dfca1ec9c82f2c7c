/** The single-writer workspace: turns and snapshots exclude each other, and idle retirement loses no work. */
module GenerationWorkspaces {
  import opened Base
  import opened Scenarios
  import opened Generation
  import opened GenerationInvariants
  import GenerationSteps
  import opened GenerationRuns
  import opened GenerationTheorems

  // ---- What is kept about idle workspaces ----

  /** An idle workspace is free, and its workflow's snapshot is the one last taken of it. */
  ghost predicate IdleRow(s: State, id: Id)
    requires id in s.workspaces
  {
    var row := s.workspaces[id];
    row.idle.Some? ==>
      && row.state == WorkspaceActive && row.turn.None? && id in s.saved
      && row.workflow in s.snapshots && s.snapshots[row.workflow] == s.saved[id]
  }

  ghost predicate IdleIsSaved(s: State) {
    && (forall id <- s.workspaces :: IdleRow(s, id))
    && (forall id <- s.saved :: id in s.workspaces)
  }

  datatype Spaces = Spaces(workspaces: map<Id, Workspace>, snapshots: map<Id, Id>, saved: map<Id, Id>)

  ghost function SpacesOf(s: State): Spaces { Spaces(s.workspaces, s.snapshots, s.saved) }

  /** A step that leaves workspaces and snapshots alone. */
  ghost predicate Undisturbed(s: State, t: State) {
    SpacesOf(s) == SpacesOf(t)
  }

  lemma WritersDisturbNothing(s: State, op: WriterOp)
    ensures Undisturbed(s, NextWriter(s, op))
  {
    hide NextWriter;
    WriterWrites(s, op);
  }

  lemma AgentsDisturbNothing(s: State, op: AgentOp)
    ensures Undisturbed(s, NextAgent(s, op))
  {
    hide FinalizeTables, Passes, Claimable, EndIfRunning, NextAttempt, MayRetry, RevealPlan, RevealIn, MatchesCandidate, ReportOn;
  }

  lemma AuthorsDisturbNothing(s: State, op: AuthorOp)
    requires !op.Submits?
    ensures Undisturbed(s, NextAuthor(s, op))
  {
    hide Submit, ReceiptFor, WorkflowToStart, PreparePublication, ReportOn;
  }

  /** What an accepted submission does to the workspaces: it ends the turn in the active one and drops the snapshot. */
  ghost predicate EndsTurnIn(s: State, t: State, workflow: Id, turn: Id, k: Id) {
    && k in s.workspaces && IsActiveFor(s.workspaces[k], workflow) && s.workspaces[k].turn == Some(turn)
    && SpacesOf(t) == Spaces(s.workspaces[k := s.workspaces[k].(turn := None, idle := None)], s.snapshots - {workflow}, s.saved)
  }

  lemma SubmitEnds(s: State, op: AuthorOp)
    requires op.Submits?
    ensures Undisturbed(s, NextAuthor(s, op)) || exists k :: EndsTurnIn(s, NextAuthor(s, op), op.workflow, op.turn, k)
  {
    var t := NextAuthor(s, op);
    if t != s {
      var k := ActiveWorkspace(s.workspaces, op.workflow).value;
      assert EndsTurnIn(s, t, op.workflow, op.turn, k);
    }
  }

  lemma EndedIdle(s: State, t: State, workflow: Id, turn: Id, k: Id, id: Id)
    requires EndsTurnIn(s, t, workflow, turn, k) && OneCurrent(s.workspaces) && id in s.workspaces && IdleRow(s, id)
    ensures id in t.workspaces && IdleRow(t, id)
  {
  }

  lemma SubmitIdle(s: State, op: AuthorOp, id: Id)
    requires op.Submits? && OneCurrent(s.workspaces) && id in s.workspaces && IdleRow(s, id)
    ensures id in NextAuthor(s, op).workspaces && IdleRow(NextAuthor(s, op), id)
  {
    hide NextAuthor, EndsTurnIn, OneCurrent;
    SubmitEnds(s, op);
    var t := NextAuthor(s, op);
    if !Undisturbed(s, t) {
      var k :| EndsTurnIn(s, t, op.workflow, op.turn, k);
      EndedIdle(s, t, op.workflow, op.turn, k, id);
    }
  }

  lemma ProvisionIdle(s: State, added: Id, row: Workspace, id: Id)
    requires row.idle.None? && (id in s.workspaces ==> IdleRow(s, id))
    requires id in CreateWorkspace(s, added, row).after.workspaces
    ensures IdleRow(CreateWorkspace(s, added, row).after, id)
  {
  }

  lemma SpaceIdle(s: State, op: SpaceOp, id: Id)
    requires OneCurrent(s.workspaces) && id in NextSpace(s, op).workspaces
    requires op.Provisions? ==> op.row.idle.None?
    requires id in s.workspaces ==> IdleRow(s, id)
    ensures IdleRow(NextSpace(s, op), id)
  {
    hide CreateWorkspace, PublishSnapshot, ClearSnapshot;
    if op.Provisions? { ProvisionIdle(s, op.id, op.row, id); }
    if op.Saves? || op.DropsSnapshot? { SnapshotIdle(s, op, id); }
  }

  lemma SnapshotIdle(s: State, op: SpaceOp, id: Id)
    requires OneCurrent(s.workspaces) && id in NextSpace(s, op).workspaces && (op.Saves? || op.DropsSnapshot?)
    requires id in s.workspaces ==> IdleRow(s, id)
    ensures IdleRow(NextSpace(s, op), id)
  {
    hide CreateWorkspace, AcquireTurn, ReleaseTurn, RecordSandbox, ActivateWorkspace, BeginCleanup, RetireCurrent, RetireIncomplete,
      MarkDeleted, AcquireSnapshot, RetireIdle;
  }

  lemma SpaceKeysStay(s: State, op: SpaceOp, id: Id)
    ensures id in s.workspaces ==> id in NextSpace(s, op).workspaces
    ensures id in NextSpace(s, op).saved ==> id in s.saved || id in s.workspaces
  {
  }

  lemma SubmitKeysStay(s: State, op: AuthorOp, id: Id)
    requires op.Submits?
    ensures id in NextAuthor(s, op).workspaces <==> id in s.workspaces
  {
    hide NextAuthor;
    SubmitEnds(s, op);
  }

  lemma ProvisionOther(s: State, added: Id, row: Workspace, id: Id)
    requires id in s.workspaces
    ensures var t := CreateWorkspace(s, added, row).after;
            && id in t.workspaces && t.workspaces[id] == s.workspaces[id]
            && (t == s || t == s.(workspaces := t.workspaces))
  {
    hide FoundWorkspace;
  }

  lemma ProvisionedIdle(s: State, op: SpaceOp, id: Id)
    requires op.Provisions? && id in s.workspaces && IdleRow(s, id)
    ensures id in NextSpace(s, op).workspaces && IdleRow(NextSpace(s, op), id)
  {
    hide CreateWorkspace;
    ProvisionOther(s, op.id, op.row, id);
  }

  /** A step keeps a row as it should be: free and saved when it is idle. */
  lemma IdleRowStep(s: State, op: Op, id: Id)
    requires OneCurrent(s.workspaces) && id in s.workspaces && IdleRow(s, id)
    ensures id in Next(s, op).workspaces && IdleRow(Next(s, op), id)
  {
    hide NextWriter, NextAgent, NextAuthor, NextSpace, OneCurrent;
    match op {
      case Writer(w) => WritersDisturbNothing(s, w);
      case Agent(a) => AgentsDisturbNothing(s, a);
      case Author(u) => if u.Submits? { SubmitIdle(s, u, id); } else { AuthorsDisturbNothing(s, u); }
      case Space(p) =>
        SpaceKeysStay(s, p, id);
        if p.Provisions? { ProvisionedIdle(s, p, id); } else { SpaceIdle(s, p, id); }
    }
  }

  lemma SubmitValid(s: State, op: AuthorOp, id: Id)
    requires op.Submits? && id in s.workspaces && ValidWorkspace(s.workspaces[id])
    ensures id in NextAuthor(s, op).workspaces && ValidWorkspace(NextAuthor(s, op).workspaces[id])
  {
    hide NextAuthor;
    SubmitEnds(s, op);
  }

  lemma ProvisionValid(s: State, added: Id, row: Workspace, id: Id)
    requires id in CreateWorkspace(s, added, row).after.workspaces && (id in s.workspaces ==> ValidWorkspace(s.workspaces[id]))
    ensures ValidWorkspace(CreateWorkspace(s, added, row).after.workspaces[id])
  {
    hide FoundWorkspace, Clashes;
  }

  lemma SpaceValid(s: State, op: SpaceOp, id: Id)
    requires id in NextSpace(s, op).workspaces && (id in s.workspaces ==> ValidWorkspace(s.workspaces[id]))
    ensures ValidWorkspace(NextSpace(s, op).workspaces[id])
  {
    hide CreateWorkspace, ActiveWorkspace, CurrentWorkspace;
    if op.Provisions? { ProvisionValid(s, op.id, op.row, id); } else if id !in s.workspaces { SpaceAdds(s, op, id); }
  }

  /** Only a row that is active and without a turn is idle. */
  lemma ValidStep(s: State, op: Op, id: Id)
    requires id in Next(s, op).workspaces && (id in s.workspaces ==> ValidWorkspace(s.workspaces[id]))
    ensures ValidWorkspace(Next(s, op).workspaces[id])
  {
    hide NextWriter, NextAgent, NextAuthor, NextSpace;
    match op {
      case Writer(w) => WritersDisturbNothing(s, w);
      case Agent(a) => AgentsDisturbNothing(s, a);
      case Author(u) => if u.Submits? { SubmitKeysStay(s, u, id); SubmitValid(s, u, id); } else { AuthorsDisturbNothing(s, u); }
      case Space(p) => SpaceValid(s, p, id);
    }
  }

  // ---- Idle retirement ----

  /** A snapshot with this digest was taken of the workspace and published. */
  ghost predicate Published(s: State, op: Op, id: Id, digest: Id) {
    op.Space? && op.p.Saves? && op.p.id == id && op.p.digest == digest
    && PublishSnapshot(s, id, op.p.holder, digest, op.p.now).out.Ok?
  }

  /** A user turn took the workspace, or resumed in it. */
  ghost predicate Entered(s: State, op: Op, id: Id) {
    op.Space? && op.p.TakesTurn? && AcquireTurn(s, op.p.workflow, op.p.turn).out == Ok(id)
  }

  lemma SavedStep(s: State, op: Op, id: Id)
    requires id in Next(s, op).saved
    ensures Published(s, op, id, Next(s, op).saved[id])
            || (id in s.saved && s.saved[id] == Next(s, op).saved[id] && !Entered(s, op, id))
  {
    hide NextWriter, NextAgent, NextAuthor, NextSpace;
    match op {
      case Writer(w) => WritersDisturbNothing(s, w);
      case Agent(a) => AgentsDisturbNothing(s, a);
      case Author(u) => if u.Submits? { SubmitSaved(s, u); } else { AuthorsDisturbNothing(s, u); }
      case Space(p) => SpaceSaved(s, p, id);
    }
  }

  lemma SubmitSaved(s: State, op: AuthorOp)
    requires op.Submits?
    ensures NextAuthor(s, op).saved == s.saved
  {
    hide NextAuthor;
    SubmitEnds(s, op);
  }

  ghost predicate OnlySaved(saved: map<Id, Id>, after: map<Id, Id>) {
    forall id <- after :: id in saved && after[id] == saved[id]
  }

  lemma RetiringSaved(s: State, op: SpaceOp)
    requires !op.TakesTurn? && !op.Saves? && !op.Provisions?
    ensures var t := NextSpace(s, op); t == s || t == s.(workspaces := t.workspaces, snapshots := t.snapshots)
  {
    hide FoundWorkspace, ActiveWorkspace, CurrentWorkspace, AcquireTurn, PublishSnapshot, CreateWorkspace;
  }

  lemma ProvisionSaved(s: State, id: Id, row: Workspace)
    ensures OnlySaved(s.saved, CreateWorkspace(s, id, row).after.saved)
  {
    hide Provisioned, FoundWorkspace, Clashes;
  }

  lemma TurnSaved(s: State, workflow: Id, turn: Id)
    ensures var step := AcquireTurn(s, workflow, turn);
            OnlySaved(s.saved, step.after.saved) && forall id <- step.after.saved :: step.out != Ok(id)
  {
    hide ActiveWorkspace;
  }

  lemma SnapshotSaved(s: State, op: SpaceOp, id: Id)
    requires op.Saves? && id in NextSpace(s, op).saved
    ensures Published(s, Space(op), id, NextSpace(s, op).saved[id]) || (id in s.saved && s.saved[id] == NextSpace(s, op).saved[id])
  {
    hide CreateWorkspace, AcquireTurn, ReleaseTurn, RecordSandbox, ActivateWorkspace, BeginCleanup, RetireCurrent, RetireIncomplete,
      MarkDeleted, AcquireSnapshot, ClearSnapshot, RetireIdle;
  }

  lemma SpaceSaved(s: State, op: SpaceOp, id: Id)
    requires id in NextSpace(s, op).saved
    ensures Published(s, Space(op), id, NextSpace(s, op).saved[id])
            || (id in s.saved && s.saved[id] == NextSpace(s, op).saved[id] && !Entered(s, Space(op), id))
  {
    if op.Saves? {
      hide NextSpace;
      SnapshotSaved(s, op, id);
    } else if op.TakesTurn? {
      TurnSaved(s, op.workflow, op.turn);
      hide AcquireTurn;
    } else if op.Provisions? {
      ProvisionSaved(s, op.id, op.row);
      hide CreateWorkspace;
    } else {
      hide NextSpace;
      RetiringSaved(s, op);
    }
  }

  /** `saved` records a publication no user turn has followed. */
  ghost predicate SavedAt(ops: seq<Op>, i: nat, id: Id, digest: Id) {
    && i < |ops| && Published(Reached(ops[..i]), ops[i], id, digest)
    && forall j | i < j < |ops| :: !Entered(Reached(ops[..j]), ops[j], id)
  }

  lemma {:induction false} SavedWasPublished(ops: seq<Op>, id: Id) returns (i: nat)
    requires id in Reached(ops).saved
    ensures SavedAt(ops, i, id, Reached(ops).saved[id])
  {
    hide Next, Published, Entered;
    var n := |ops| - 1;
    SavedStep(Reached(ops[..n]), ops[n], id);
    if Published(Reached(ops[..n]), ops[n], id, Reached(ops).saved[id]) {
      i := n;
    } else {
      i := SavedWasPublished(ops[..n], id);
      assert ops[..n][..i] == ops[..i];
      forall j | i < j < |ops| ensures !Entered(Reached(ops[..j]), ops[j], id) {
        if j < n { assert ops[..n][..j] == ops[..j]; }
      }
    }
  }

  /** No caller hands CreateWorkspace a row that is already idle: one makes pending rows, the other deleting ones. */
  predicate ProvisionsBusy(op: Op) { op.Space? && op.p.Provisions? ==> op.p.row.idle.None? }

  /** Though its interface admits it: the row is inserted, idle from the start. */
  ghost predicate HandedIdle(s: State, op: Op, id: Id) {
    op.Space? && op.p.Provisions? && op.p.id == id && op.p.row.idle.Some? && id !in s.workspaces && id in Next(s, op).workspaces
  }

  ghost predicate HandedAt(ops: seq<Op>, i: nat, id: Id) {
    && i < |ops| && HandedIdle(Reached(ops[..i]), ops[i], id)
    && forall j | i < j < |ops| :: !Entered(Reached(ops[..j]), ops[j], id)
  }

  ghost predicate Handed(ops: seq<Op>, id: Id) { exists i :: HandedAt(ops, i, id) }

  lemma StaysHanded(ops: seq<Op>, op: Op, id: Id)
    requires Handed(ops, id) && !Entered(Reached(ops), op, id)
    ensures Handed(ops + [op], id)
  {
    hide Reached, HandedIdle, Entered;
    var i: nat :| HandedAt(ops, i, id);
    var more := ops + [op];
    assert more[..|ops|] == ops && more[..i] == ops[..i];
    forall j | i < j < |more| ensures !Entered(Reached(more[..j]), more[j], id) {
      if j < |ops| { assert more[..j] == ops[..j]; }
    }
    assert HandedAt(more, i, id);
  }

  lemma HandedNow(ops: seq<Op>, op: Op, id: Id)
    requires HandedIdle(Reached(ops), op, id)
    ensures Handed(ops + [op], id)
  {
    hide Reached, HandedIdle;
    assert (ops + [op])[..|ops|] == ops;
    assert HandedAt(ops + [op], |ops|, id);
  }

  /** The steps that take, give back or drop. */
  predicate Holding(op: SpaceOp) { op.TakesTurn? || op.EndsTurn? || op.TakesSnapshot? || op.Saves? || op.DropsSnapshot? || op.Provisions? }

  lemma HoldingAdds(s: State, op: SpaceOp, id: Id)
    requires Holding(op) && !op.Provisions? && id in NextSpace(s, op).workspaces
    ensures id in s.workspaces
  {
    hide CreateWorkspace, RecordSandbox, ActivateWorkspace, BeginCleanup, RetireCurrent, RetireIncomplete, MarkDeleted, RetireIdle;
  }

  lemma RetiringAdds(s: State, op: SpaceOp, id: Id)
    requires !Holding(op) && id in NextSpace(s, op).workspaces
    ensures id in s.workspaces
  {
    hide CreateWorkspace, AcquireTurn, ReleaseTurn, AcquireSnapshot, PublishSnapshot, ClearSnapshot;
  }

  lemma SpaceKeysBack(s: State, op: SpaceOp, id: Id)
    ensures !op.Provisions? && id in NextSpace(s, op).workspaces ==> id in s.workspaces
  {
    hide NextSpace;
    if !op.Provisions? && id in NextSpace(s, op).workspaces {
      if Holding(op) { HoldingAdds(s, op, id); } else { RetiringAdds(s, op, id); }
    }
  }

  lemma ProvisionAdds(s: State, added: Id, row: Workspace, id: Id)
    requires id !in s.workspaces && id in CreateWorkspace(s, added, row).after.workspaces
    ensures added == id && CreateWorkspace(s, added, row).after.workspaces[id] == row
  {
    hide FoundWorkspace, Clashes;
  }

  lemma SpaceAdds(s: State, op: SpaceOp, id: Id)
    requires id !in s.workspaces && id in NextSpace(s, op).workspaces
    ensures op.Provisions? && op.id == id && NextSpace(s, op).workspaces[id] == op.row
  {
    if op.Provisions? {
      hide CreateWorkspace;
      ProvisionAdds(s, op.id, op.row, id);
    } else {
      hide NextSpace;
      SpaceKeysBack(s, op, id);
      assert false;
    }
  }

  lemma Adds(s: State, op: Op, id: Id)
    requires id !in s.workspaces && id in Next(s, op).workspaces
    ensures op.Space? && op.p.Provisions? && op.p.id == id && Next(s, op).workspaces[id] == op.p.row
  {
    hide NextWriter, NextAgent, NextAuthor, NextSpace;
    match op {
      case Writer(w) => WritersDisturbNothing(s, w);
      case Agent(a) => AgentsDisturbNothing(s, a);
      case Author(u) => if u.Submits? { SubmitKeysStay(s, u, id); } else { AuthorsDisturbNothing(s, u); }
      case Space(p) => SpaceAdds(s, p, id);
    }
  }

  lemma EnteringClears(s: State, op: Op, id: Id)
    requires Entered(s, op, id) && id in s.workspaces && ValidWorkspace(s.workspaces[id])
    ensures id in Next(s, op).workspaces && Next(s, op).workspaces[id].idle.None?
  {
    hide ActiveWorkspace;
  }

  /** In every run an idle row is free; and it is saved, or was handed in idle and not entered since. */
  lemma {:induction false} IdleRests(ops: seq<Op>, id: Id)
    requires id in Reached(ops).workspaces
    ensures ValidWorkspace(Reached(ops).workspaces[id]) && (IdleRow(Reached(ops), id) || Handed(ops, id))
  {
    hide Next, Handed, HandedIdle, Entered, Inv, ValidWorkspace;
    if ops != [] {
      var init, op := ops[..|ops| - 1], ops[|ops| - 1];
      assert init + [op] == ops;
      var s, t := Reached(init), Reached(ops);
      RunSound(init);
      GenerationSteps.CurrentOf(s);
      if id in s.workspaces {
        IdleRests(init, id);
        ValidStep(s, op, id);
        if IdleRow(s, id) {
          IdleRowStep(s, op, id);
        } else if Entered(s, op, id) {
          EnteringClears(s, op, id);
        } else {
          StaysHanded(init, op, id);
        }
      } else {
        Adds(s, op, id);
        ValidStep(s, op, id);
        NewRests(init, op, id);
      }
    }
  }

  lemma NewRests(ops: seq<Op>, op: Op, id: Id)
    requires id !in Reached(ops).workspaces && id in Next(Reached(ops), op).workspaces
    requires op.Space? && op.p.Provisions? && op.p.id == id && Next(Reached(ops), op).workspaces[id] == op.p.row
    ensures IdleRow(Next(Reached(ops), op), id) || Handed(ops + [op], id)
  {
    hide Reached, Next, Handed;
    if op.p.row.idle.Some? { HandedNow(ops, op, id); }
  }

  /** What idle retirement throws away was published from this very workspace under the expected digest, with no user turn in it
      since; or the row was handed in idle in this run, and not entered since. */
  lemma RetirementRests(ops: seq<Op>, id: Id, expected: Id, staleBefore: Time)
    requires RetireIdle(Reached(ops), id, expected, staleBefore).out.Ok?
    ensures (exists i :: SavedAt(ops, i, id, expected)) || (exists i :: HandedAt(ops, i, id))
  {
    hide Reached, Published, Entered, HandedIdle;
    IdleRests(ops, id);
    if IdleRow(Reached(ops), id) {
      var i := SavedWasPublished(ops, id);
    }
  }

  lemma NoneHanded(ops: seq<Op>, id: Id)
    ensures (forall op <- ops :: ProvisionsBusy(op)) ==> !Handed(ops, id)
  {
    hide Reached;
    forall i: nat | HandedAt(ops, i, id) ensures exists op <- ops :: !ProvisionsBusy(op) {
      assert !ProvisionsBusy(ops[i]);
    }
  }

  /** Idle retirement loses no work, as long as no row is handed in idle: what is thrown away was published from
      this very workspace under the expected digest, and no user turn has held the workspace since. */
  lemma RetirementLosesNothing(ops: seq<Op>, id: Id, expected: Id, staleBefore: Time) returns (i: nat)
    requires forall op <- ops :: ProvisionsBusy(op)
    requires RetireIdle(Reached(ops), id, expected, staleBefore).out.Ok?
    ensures SavedAt(ops, i, id, expected)
  {
    hide Reached, SavedAt, RetireIdle;
    RetirementRests(ops, id, expected, staleBefore);
    NoneHanded(ops, id);
    i :| SavedAt(ops, i, id, expected);
  }

  /** Inserting a row keeps "idle means saved" exactly when the row is not handed in idle. */
  lemma HandedIdleIsUnsaved(s: State, id: Id, row: Workspace)
    requires IdleIsSaved(s) && ValidWorkspace(row) && !Clashes(s.workspaces, id, row)
    ensures IdleIsSaved(CreateWorkspace(s, id, row).after) <==> row.idle.None?
  {
    var t := CreateWorkspace(s, id, row).after;
    assert t.workspaces == s.workspaces[id := row];
    if row.idle.None? {
      forall k | k in t.workspaces ensures IdleRow(t, k) {
        if k != id { assert IdleRow(s, k); }
      }
    } else {
      assert !IdleRow(t, id);
    }
  }

  // ---- A run in which a row handed in idle is retired unsaved ----

  const Handing: seq<Op> := [
    Writer(OpenSession(1, 1)), Writer(FinishPlan(1, 0, true)), Author(Starts(1, 1, 1, 1, 7, 0)),
    Space(Provisions(1, Workspace(7, 1, None, None, None, WorkspaceActive))), Space(TakesSnapshot(7, 5)), Space(Saves(1, 5, 9, 10)),
    Space(RetiresIdle(1, 9, 20)), Space(Provisions(2, Workspace(7, 2, None, None, Some(10), WorkspaceActive)))]

  ghost predicate Stands(s: State, rows: map<Id, Workspace>, snapshots: map<Id, Id>, saved: map<Id, Id>) {
    InState(s.workflows, 7, Generating) && s.workspaces == rows && s.snapshots == snapshots && s.saved == saved
  }

  lemma OpensFirst()
    ensures var t := NextWriter(Empty, OpenSession(1, 1));
            t == Empty.(sessions := map[1 := Session(1, DraftConversation, 0, 0, None, None)], plans := map[PlanKey(1, 0) := PlanRow(false, None)])
  {
  }

  lemma PlansNext(s: State)
    requires s.sessions == map[1 := Session(1, DraftConversation, 0, 0, None, None)] && PlanKey(1, 1) !in s.plans
    ensures var t := NextWriter(s, FinishPlan(1, 0, true));
            t == s.(sessions := map[1 := Session(1, IntentReview, 1, 0, None, None)], plans := s.plans[PlanKey(1, 1) := PlanRow(true, None)])
  {
  }

  lemma StartsFresh(s: State)
    requires s.sessions == map[1 := Session(1, IntentReview, 1, 0, None, None)] && PlanKey(1, 1) in s.plans
    requires s.plans[PlanKey(1, 1)] == PlanRow(true, None) && s.workflows == map[] && s.receipts == map[]
    ensures var t := CreateWorkflow(s, 1, 1, 1, 1, 7, 0).after;
            InState(t.workflows, 7, Generating) && t.workspaces == s.workspaces && t.snapshots == s.snapshots && t.saved == s.saved
  {
    assert WorkflowFor(s.workflows, 1, 1) == None;
  }

  lemma HandingStarts()
    ensures Stands(Reached(Handing[..3]), map[], map[], map[])
  {
    hide NextWriter, CreateWorkflow, Reached;
    NothingReached();
    assert Handing[..0] == [] && forall i | 0 <= i < 3 :: Handing[..i] + [Handing[i]] == Handing[..i + 1];
    ReachedNext(Handing[..0], Handing[0]);
    ReachedNext(Handing[..1], Handing[1]);
    ReachedNext(Handing[..2], Handing[2]);
    OpensFirst();
    PlansNext(Reached(Handing[..1]));
    StartsFresh(Reached(Handing[..2]));
  }

  lemma NothingReached()
    ensures Reached([]) == Empty
  {
  }

  const First := Workspace(7, 1, None, None, None, WorkspaceActive)

  const Second := Workspace(7, 2, None, None, Some(10), WorkspaceActive)

  lemma ProvisionsIt(s: State, rows: map<Id, Workspace>, snapshots: map<Id, Id>, saved: map<Id, Id>, id: Id, row: Workspace)
    requires Stands(s, rows, snapshots, saved) && ValidWorkspace(row) && !Clashes(rows, id, row)
    ensures Stands(NextSpace(s, Provisions(id, row)), rows[id := row], snapshots, saved)
  {
    hide FoundWorkspace, Clashes;
  }

  lemma ActiveAlone(row: Workspace)
    requires row.workflow == 7 && row.state == WorkspaceActive
    ensures ActiveWorkspace(map[1 := row], 7) == Some(1)
  {
    var rows := map[1 := row];
    assert 1 in rows && IsActiveFor(rows[1], 7);
  }

  lemma HandingStep(k: nat)
    requires 3 <= k < 8
    ensures Handing[k].Space? && Reached(Handing[..k + 1]) == NextSpace(Reached(Handing[..k]), Handing[k].p)
  {
    hide Reached, NextWriter, NextAgent, NextAuthor, NextSpace;
    assert Handing[..k] + [Handing[k]] == Handing[..k + 1];
    ReachedNext(Handing[..k], Handing[k]);
  }

  lemma HandingRuns()
    ensures Stands(Reached(Handing), map[1 := First.Retire(), 2 := Second], map[7 := 9], map[1 := 9])
  {
    hide Reached, NextSpace, Stands, Clashes;
    HandingStarts();
    assert Handing[..8] == Handing;
    HandingStep(3);
    NothingClashes(map[], 1, First);
    ProvisionsIt(Reached(Handing[..3]), map[], map[], map[], 1, First);
    HandingStep(4);
    TakesIt(Reached(Handing[..4]));
    HandingStep(5);
    SavesIt(Reached(Handing[..5]));
    HandingStep(6);
    RetiresIt(Reached(Handing[..6]));
    HandingStep(7);
    var left := map[1 := First.Retire()];
    NothingClashes(left, 2, Second);
    ProvisionsIt(Reached(Handing[..7]), left, map[7 := 9], map[1 := 9], 2, Second);
    assert left[2 := Second] == map[1 := First.Retire(), 2 := Second];
  }

  lemma NothingClashes(rows: map<Id, Workspace>, id: Id, row: Workspace)
    requires id !in rows && row.workflow == 7 && forall k <- rows :: !rows[k].Current() && rows[k].pvc != row.pvc
    ensures !Clashes(rows, id, row)
  {
    NoneCurrentIn(rows);
  }

  lemma NoneCurrentIn(rows: map<Id, Workspace>)
    requires forall id <- rows :: !rows[id].Current()
    ensures CurrentWorkspace(rows, 7) == None
  {
  }

  lemma TakesIt(s: State)
    requires Stands(s, map[1 := First], map[], map[])
    ensures Stands(NextSpace(s, TakesSnapshot(7, 5)), map[1 := First.(turn := Some(5))], map[], map[])
  {
    ActiveAlone(First);
    hide ActiveWorkspace;
  }

  lemma SavesIt(s: State)
    requires Stands(s, map[1 := First.(turn := Some(5))], map[], map[])
    ensures Stands(NextSpace(s, Saves(1, 5, 9, 10)), map[1 := First.(idle := Some(10))], map[7 := 9], map[1 := 9])
  {
  }

  lemma RetiresIt(s: State)
    requires Stands(s, map[1 := First.(idle := Some(10))], map[7 := 9], map[1 := 9])
    ensures Stands(NextSpace(s, RetiresIdle(1, 9, 20)), map[1 := First.Retire()], map[7 := 9], map[1 := 9])
  {
  }

  /** From the empty tables: a workspace is saved and retired; a second is handed in idle and retired, though nothing
      was ever published from it. */
  lemma HandedIdleIsRetired()
    ensures RetireIdle(Reached(Handing), 2, 9, 20).out.Ok? && Handed(Handing, 2)
    ensures forall i, digest :: !SavedAt(Handing, i, 2, digest)
  {
    hide Reached;
    HandingRuns();
    forall i: nat, digest: Id ensures !SavedAt(Handing, i, 2, digest) {
      if i < |Handing| { assert !(Handing[i].Space? && Handing[i].p.Saves? && Handing[i].p.id == 2); }
    }
    IdleRests(Handing, 2);
  }

  // ---- The idle time ----

  /** The row is idle since then, its workflow has a snapshot; or the row is no longer current. */
  ghost predicate IdleSince(s: State, id: Id, workflow: Id, since: Time) {
    && id in s.workspaces && s.workspaces[id].workflow == workflow
    && (s.workspaces[id].Current() ==>
          s.workspaces[id].state == WorkspaceActive && s.workspaces[id].turn.None?
          && s.workspaces[id].idle == Some(since) && workflow in s.snapshots)
  }

  predicate DropsIt(op: Op, workflow: Id) { op.Space? && op.p.DropsSnapshot? && op.p.workflow == workflow }

  lemma SpaceIdleTime(s: State, op: SpaceOp, id: Id, workflow: Id, since: Time)
    requires OneCurrent(s.workspaces) && IdleSince(s, id, workflow, since) && !Entered(s, Space(op), id) && !DropsIt(Space(op), workflow)
    ensures IdleSince(NextSpace(s, op), id, workflow, since)
  {
    hide CreateWorkspace;
    if op.Provisions? { ProvisionOther(s, op.id, op.row, id); }
  }

  lemma EndedIdleTime(s: State, t: State, ended: Id, turn: Id, k: Id, id: Id, workflow: Id, since: Time)
    requires EndsTurnIn(s, t, ended, turn, k) && OneCurrent(s.workspaces) && IdleSince(s, id, workflow, since)
    ensures IdleSince(t, id, workflow, since)
  {
  }

  lemma SubmitIdleTime(s: State, op: AuthorOp, id: Id, workflow: Id, since: Time)
    requires op.Submits? && OneCurrent(s.workspaces) && IdleSince(s, id, workflow, since)
    ensures IdleSince(NextAuthor(s, op), id, workflow, since)
  {
    hide NextAuthor, EndsTurnIn, OneCurrent;
    SubmitEnds(s, op);
    var t := NextAuthor(s, op);
    if !Undisturbed(s, t) {
      var k :| EndsTurnIn(s, t, op.workflow, op.turn, k);
      EndedIdleTime(s, t, op.workflow, op.turn, k, id, workflow, since);
    }
  }

  lemma IdleTimeStep(s: State, op: Op, id: Id, workflow: Id, since: Time)
    requires OneCurrent(s.workspaces) && IdleSince(s, id, workflow, since) && !Entered(s, op, id) && !DropsIt(op, workflow)
    ensures IdleSince(Next(s, op), id, workflow, since)
  {
    hide NextWriter, NextAgent, NextAuthor, NextSpace, Entered, OneCurrent;
    match op {
      case Writer(w) => WritersDisturbNothing(s, w);
      case Agent(a) => AgentsDisturbNothing(s, a);
      case Author(u) => if u.Submits? { SubmitIdleTime(s, u, id, workflow, since); } else { AuthorsDisturbNothing(s, u); }
      case Space(p) => SpaceIdleTime(s, p, id, workflow, since);
    }
  }

  /** No turn enters the workspace, and its workflow's snapshot is not dropped. */
  ghost predicate Quiet(ops: seq<Op>, more: seq<Op>, id: Id, workflow: Id) {
    forall j | 0 <= j < |more| :: !Entered(Reached(ops + more[..j]), more[j], id) && !DropsIt(more[j], workflow)
  }

  lemma QuietBefore(ops: seq<Op>, more: seq<Op>, id: Id, workflow: Id)
    requires Quiet(ops, more, id, workflow) && more != []
    ensures var n := |more| - 1;
            Quiet(ops, more[..n], id, workflow) && !Entered(Reached(ops + more[..n]), more[n], id) && !DropsIt(more[n], workflow)
  {
    hide Reached, Entered, DropsIt;
    var n := |more| - 1;
    assert forall j | 0 <= j < n :: more[..n][..j] == more[..j];
  }

  lemma {:induction false} IdleTimeAfter(ops: seq<Op>, more: seq<Op>, id: Id, workflow: Id, since: Time)
    requires IdleSince(Reached(ops), id, workflow, since) && Quiet(ops, more, id, workflow)
    ensures IdleSince(Reached(ops + more), id, workflow, since)
  {
    hide Reached, Next, IdleSince, DropsIt, Entered, Inv, Quiet;
    if more == [] {
      assert ops + more == ops;
    } else {
      var init, op := more[..|more| - 1], more[|more| - 1];
      QuietBefore(ops, more, id, workflow);
      IdleTimeAfter(ops, init, id, workflow, since);
      RunSound(ops + init);
      GenerationSteps.CurrentOf(Reached(ops + init));
      IdleTimeStep(Reached(ops + init), op, id, workflow, since);
      ReachedNext(ops + init, op);
      assert ops + init + [op] == ops + more;
    }
  }

  /** Once a workspace is idle, over every run in which no turn enters it and its snapshot is not dropped, its idle time
      stands still until it is retired. */
  lemma IdleTimeStays(ops: seq<Op>, more: seq<Op>, id: Id)
    requires id in Reached(ops).workspaces && Reached(ops).workspaces[id].idle.Some?
    requires Reached(ops).workspaces[id].workflow in Reached(ops).snapshots
    requires Quiet(ops, more, id, Reached(ops).workspaces[id].workflow)
    ensures id in Reached(ops + more).workspaces
    ensures Reached(ops + more).workspaces[id].idle == Reached(ops).workspaces[id].idle || !Reached(ops + more).workspaces[id].Current()
  {
    hide Reached, Quiet, Handed;
    IdleRests(ops, id);
    var row := Reached(ops).workspaces[id];
    IdleTimeAfter(ops, more, id, row.workflow, row.idle.value);
  }

  // ---- One holder at a time ----

  /** Somebody, a user turn or a snapshot, takes the workspace. */
  ghost predicate Takes(s: State, op: Op, id: Id, holder: Id) {
    op.Space? &&
    (|| (op.p.TakesTurn? && op.p.turn == holder && AcquireTurn(s, op.p.workflow, holder).out == Ok(id))
     || (op.p.TakesSnapshot? && op.p.holder == holder && AcquireSnapshot(s, op.p.workflow, holder).out == Ok(id)))
  }

  /** The steps by which a holder gives the workspace back: end the turn, publish the snapshot, submit. */
  predicate LetsGo(op: Op, holder: Id) {
    || (op.Space? && op.p.EndsTurn? && op.p.turn == holder)
    || (op.Space? && op.p.Saves? && op.p.holder == holder)
    || (op.Author? && op.u.Submits? && op.u.turn == holder)
  }

  ghost predicate HeldOrGone(s: State, id: Id, holder: Id) {
    && id in s.workspaces
    && (s.workspaces[id].Current() ==> s.workspaces[id].state == WorkspaceActive && s.workspaces[id].turn == Some(holder))
  }

  lemma SpaceHeld(s: State, op: SpaceOp, id: Id, holder: Id)
    requires OneCurrent(s.workspaces) && HeldOrGone(s, id, holder) && !LetsGo(Space(op), holder)
    ensures HeldOrGone(NextSpace(s, op), id, holder)
  {
    hide CreateWorkspace;
    if op.Provisions? {
      ProvisionOther(s, op.id, op.row, id);
    } else if Holding(op) {
      HoldingHeld(s, op, id, holder);
    }
  }

  lemma HoldingHeld(s: State, op: SpaceOp, id: Id, holder: Id)
    requires Holding(op) && !op.Provisions?
    requires OneCurrent(s.workspaces) && HeldOrGone(s, id, holder) && !LetsGo(Space(op), holder)
    ensures HeldOrGone(NextSpace(s, op), id, holder)
  {
    hide CreateWorkspace, RecordSandbox, ActivateWorkspace, BeginCleanup, RetireCurrent, RetireIncomplete, MarkDeleted, RetireIdle;
  }

  lemma HeldStep(s: State, op: Op, id: Id, holder: Id)
    requires OneCurrent(s.workspaces) && HeldOrGone(s, id, holder) && !LetsGo(op, holder)
    ensures HeldOrGone(Next(s, op), id, holder)
  {
    hide NextWriter, NextAgent, NextAuthor, NextSpace, OneCurrent;
    match op {
      case Writer(w) => WritersDisturbNothing(s, w);
      case Agent(a) => AgentsDisturbNothing(s, a);
      case Author(u) => if u.Submits? { SubmitHeld(s, u, id, holder); } else { AuthorsDisturbNothing(s, u); }
      case Space(p) => SpaceHeld(s, p, id, holder);
    }
  }

  lemma SubmitHeld(s: State, op: AuthorOp, id: Id, holder: Id)
    requires op.Submits? && op.turn != holder && HeldOrGone(s, id, holder)
    ensures HeldOrGone(NextAuthor(s, op), id, holder)
  {
    hide NextAuthor;
    SubmitEnds(s, op);
  }

  lemma SpaceTakes(s: State, op: SpaceOp, id: Id, holder: Id)
    requires Takes(s, Space(op), id, holder)
    ensures HeldOrGone(NextSpace(s, op), id, holder)
  {
    hide Provisioned, FoundWorkspace, CurrentWorkspace;
  }

  lemma TakesHolds(s: State, op: Op, id: Id, holder: Id)
    requires Takes(s, op, id, holder)
    ensures HeldOrGone(Next(s, op), id, holder)
  {
    hide NextWriter, NextAgent, NextAuthor, NextSpace, HeldOrGone;
    SpaceTakes(s, op.p, id, holder);
  }

  lemma HeldRefuses(s: State, op: Op, id: Id, holder: Id, other: Id)
    requires HeldOrGone(s, id, holder) && holder != other
    ensures !Takes(s, op, id, other)
  {
  }

  lemma {:induction false} HeldAfter(ops: seq<Op>, more: seq<Op>, id: Id, holder: Id)
    requires HeldOrGone(Reached(ops), id, holder) && forall op <- more :: !LetsGo(op, holder)
    ensures HeldOrGone(Reached(ops + more), id, holder)
  {
    hide Next, HeldOrGone, LetsGo, Inv;
    if more == [] {
      assert ops + more == ops;
    } else {
      var n := |more| - 1;
      HeldAfter(ops, more[..n], id, holder);
      RunSound(ops + more[..n]);
      GenerationSteps.CurrentOf(Reached(ops + more[..n]));
      HeldStep(Reached(ops + more[..n]), more[n], id, holder);
      ReachedNext(ops + more[..n], more[n]);
      assert ops + more[..n] + [more[n]] == ops + more;
    }
  }

  /** Turns and snapshots exclude each other: between two takings by different holders, the first let go. */
  lemma HoldersExclude(ops: seq<Op>, i: nat, j: nat, id: Id, a: Id, b: Id)
    requires i < j < |ops| && a != b
    requires Takes(Reached(ops[..i]), ops[i], id, a) && Takes(Reached(ops[..j]), ops[j], id, b)
    ensures exists k | i < k < j :: LetsGo(ops[k], a)
  {
    hide Next, Takes, HeldOrGone, LetsGo, Reached;
    if forall k | i < k < j :: !LetsGo(ops[k], a) {
      TakesHolds(Reached(ops[..i]), ops[i], id, a);
      ReachedNext(ops[..i], ops[i]);
      assert ops[..i] + [ops[i]] == ops[..i + 1];
      HeldAfter(ops[..i + 1], ops[i + 1..j], id, a);
      assert ops[..i + 1] + ops[i + 1..j] == ops[..j];
      HeldRefuses(Reached(ops[..j]), ops[j], id, a, b);
    }
  }
}
