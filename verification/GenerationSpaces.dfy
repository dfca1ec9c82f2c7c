/** What each accepted step does to a workspace, and who may take it. */
module GenerationSpaces {
  import opened Base
  import opened Generation
  import opened GenerationInvariants
  import opened GenerationProgress

  /** One workspace row became this, and no other changed. */
  predicate Became(a: map<Id, Workspace>, b: map<Id, Workspace>, id: Id, row: Workspace) { id in a && b == a[id := row] }

  lemma NoneActive(s: State, workflow: Id)
    requires forall k <- s.workspaces :: !IsActiveFor(s.workspaces[k], workflow)
    ensures ActiveWorkspace(s.workspaces, workflow) == None
  {
  }

  lemma NoneCurrent(s: State, workflow: Id)
    requires forall k <- s.workspaces :: !IsCurrentFor(s.workspaces[k], workflow)
    ensures CurrentWorkspace(s.workspaces, workflow) == None
  {
  }

  lemma CurrentIs(s: State, workflow: Id, id: Id)
    requires OneCurrent(s.workspaces) && id in s.workspaces && IsCurrentFor(s.workspaces[id], workflow)
    ensures CurrentWorkspace(s.workspaces, workflow) == Some(id)
  {
    assert exists k :: k in s.workspaces && IsCurrentFor(s.workspaces[k], workflow);
  }

  /** A row is inserted when its identity and volume are new and its workflow has no current workspace; otherwise the
      workflow's current one answers. */
  lemma ProvisionsIff(s: State, id: Id, row: Workspace)
    requires ValidWorkspace(row) && row.Current() && id !in s.workspaces && forall k <- s.workspaces :: s.workspaces[k].pvc != row.pvc
    ensures var step := CreateWorkspace(s, id, row);
            && ((forall k <- s.workspaces :: !IsCurrentFor(s.workspaces[k], row.workflow)) ==>
                  step == Step(s.(workspaces := s.workspaces[id := row]), Ok(id)))
            && (forall k <- s.workspaces :: OneCurrent(s.workspaces) && IsCurrentFor(s.workspaces[k], row.workflow) ==> step == Step(s, Ok(k)))
  {
    hide CurrentWorkspace;
    if forall k <- s.workspaces :: !IsCurrentFor(s.workspaces[k], row.workflow) {
      NoneCurrent(s, row.workflow);
      assert !Clashes(s.workspaces, id, row);
    }
    forall k | k in s.workspaces && OneCurrent(s.workspaces) && IsCurrentFor(s.workspaces[k], row.workflow)
      ensures CreateWorkspace(s, id, row) == Step(s, Ok(k))
    {
      CurrentIs(s, row.workflow, k);
      assert Clashes(s.workspaces, id, row);
    }
  }

  /** A row inserted before is found again by its own workflow and volume, and by no other. */
  lemma ProvisionReplays(s: State, id: Id, row: Workspace)
    requires ValidWorkspace(row) && id in s.workspaces
    ensures CreateWorkspace(s, id, row)
            == Step(s, if s.workspaces[id].workflow == row.workflow && s.workspaces[id].pvc == row.pvc then Ok(id) else Err(Conflict))
  {
  }

  /** A turn is taken on the workflow's active workspace, by whoever holds it or when nobody does; then it is held, not
      idle, and what was saved of it is no longer what it holds. */
  lemma TurnIsTaken(s: State, workflow: Id, turn: Id, id: Id)
    requires OneCurrent(s.workspaces) && id in s.workspaces && IsActiveFor(s.workspaces[id], workflow)
    ensures var step, row := AcquireTurn(s, workflow, turn), s.workspaces[id];
            && step.out == (if row.turn in {None, Some(turn)} then Ok(id) else Err(Busy))
            && (row.turn == None ==> step.after == s.(workspaces := s.workspaces[id := row.(turn := Some(turn), idle := None)], saved := s.saved - {id}))
            && (row.turn == Some(turn) ==> step.after == s.(saved := s.saved - {id}))
            && (step.out.Err? ==> step.after == s)
  {
    hide ActiveWorkspace;
    ActiveIs(s, workflow, id);
  }

  /** Only its holder ends a turn; then nobody holds the workspace, and it is not idle until it is saved. */
  lemma TurnEnds(s: State, workflow: Id, turn: Id, id: Id)
    requires OneCurrent(s.workspaces) && id in s.workspaces && IsActiveFor(s.workspaces[id], workflow)
    ensures var step := ReleaseTurn(s, workflow, turn);
            if s.workspaces[id].turn == Some(turn)
            then step == Step(s.(workspaces := s.workspaces[id := s.workspaces[id].(turn := None, idle := None)]), Ok(()))
            else step == Step(s, Err(TurnLost))
  {
    hide ActiveWorkspace;
    ActiveIs(s, workflow, id);
  }

  /** Without an active workspace there is no turn and no snapshot to take. */
  lemma NothingToTake(s: State, workflow: Id, turn: Id)
    requires forall k <- s.workspaces :: !IsActiveFor(s.workspaces[k], workflow)
    ensures AcquireTurn(s, workflow, turn) == Step(s, Err(NotFound)) && ReleaseTurn(s, workflow, turn) == Step(s, Err(TurnLost))
    ensures AcquireSnapshot(s, workflow, turn) == Step(s, Err(NotFound))
  {
    NoneActive(s, workflow);
  }

  /** A snapshot is taken like a turn, of a workflow being generated, and not when the last one is still current. */
  lemma SnapshotIsTaken(s: State, workflow: Id, holder: Id, id: Id)
    requires OneCurrent(s.workspaces) && id in s.workspaces && IsActiveFor(s.workspaces[id], workflow) && InState(s.workflows, workflow, Generating)
    ensures var step, row := AcquireSnapshot(s, workflow, holder), s.workspaces[id];
            && step.out == (if row.turn.Some? then Err(Busy) else if row.idle.Some? && workflow in s.snapshots then Err(SnapshotCurrent) else Ok(id))
            && step.after == (if step.out.Ok? then s.(workspaces := s.workspaces[id := row.(turn := Some(holder), idle := None)]) else s)
  {
    hide ActiveWorkspace;
    ActiveIs(s, workflow, id);
  }

  /** The holder of an active workspace publishes its snapshot while its workflow is generating; then nobody holds it and
      it is idle from that instant, or still from when it was when the content has not changed. */
  lemma SnapshotIsPublished(s: State, id: Id, holder: Id, digest: Id, now: Time)
    ensures var step := PublishSnapshot(s, id, holder, digest, now);
            && (step.out.Ok? <==>
                  && id in s.workspaces && s.workspaces[id].state == WorkspaceActive && s.workspaces[id].turn == Some(holder)
                  && InState(s.workflows, s.workspaces[id].workflow, Generating))
            && (step.out.Ok? ==>
                  var row := s.workspaces[id];
                  && step.after.snapshots == s.snapshots[row.workflow := digest] && step.after.saved == s.saved[id := digest]
                  && Became(s.workspaces, step.after.workspaces, id, row.(turn := None, idle := step.after.workspaces[id].idle))
                  && step.after.workspaces[id].idle
                     == (if row.idle.Some? && row.workflow in s.snapshots && s.snapshots[row.workflow] == digest then row.idle else Some(now)))
  {
  }

  /** The expected snapshot of a generating workflow is dropped, with the idle time of its active workspace. */
  lemma SnapshotIsDropped(s: State, workflow: Id, expected: Id, id: Id)
    ensures var step := ClearSnapshot(s, workflow, expected);
            && step.out == Ok(InState(s.workflows, workflow, Generating) && workflow in s.snapshots && s.snapshots[workflow] == expected)
            && (!step.out.value ==> step.after == s)
            && (step.out.value ==>
                  && step.after.snapshots == s.snapshots - {workflow} && step.after.workspaces.Keys == s.workspaces.Keys
                  && (id in s.workspaces ==>
                        step.after.workspaces[id] == if IsActiveFor(s.workspaces[id], workflow) then s.workspaces[id].(idle := None) else s.workspaces[id]))
  {
  }

  /** A workspace is retired for idleness exactly when it is active, free, idle long enough, and saved as expected, while
      its workflow is generating. */
  lemma RetiresIdleIff(s: State, id: Id, expected: Id, staleBefore: Time)
    ensures var step := RetireIdle(s, id, expected, staleBefore);
            && (step.out.Ok? <==>
                  && id in s.workspaces && InState(s.workflows, s.workspaces[id].workflow, Generating)
                  && s.workspaces[id].state == WorkspaceActive && s.workspaces[id].turn.None?
                  && s.workspaces[id].idle.Some? && s.workspaces[id].idle.value <= staleBefore
                  && s.workspaces[id].workflow in s.snapshots && s.snapshots[s.workspaces[id].workflow] == expected)
            && (step.out.Ok? ==> Became(s.workspaces, step.after.workspaces, id, s.workspaces[id].(state := WorkspaceDeleting, turn := None, idle := None)))
            && (step.out.Ok? ==> step.after == s.(workspaces := step.after.workspaces))
  {
  }

  /** A pending workspace is given its sandbox, and a current one made active in it; a sandbox once given is not exchanged. */
  lemma SandboxIsKept(s: State, id: Id, sandbox: Id)
    requires id in s.workspaces
    ensures var named, activated, row := RecordSandbox(s, id, sandbox), ActivateWorkspace(s, id, sandbox), s.workspaces[id];
            && (named.out.Ok? <==> row.state == WorkspacePending && row.sandbox in {None, Some(sandbox)})
            && (named.out.Ok? ==> named.after == s.(workspaces := s.workspaces[id := row.(sandbox := Some(sandbox))]))
            && (activated.out.Ok? <==> row.state in {WorkspacePending, WorkspaceActive} && row.sandbox in {None, Some(sandbox)})
            && (activated.out.Ok? ==> activated.after == s.(workspaces := s.workspaces[id := row.(sandbox := Some(sandbox), state := WorkspaceActive)]))
  {
  }

  /** Cleaning up takes a workspace from everybody and has it deleted; a row is deleted only after that. */
  lemma CleanupEnds(s: State, id: Id)
    requires id in s.workspaces
    ensures var begun, deleted, row := BeginCleanup(s, id), MarkDeleted(s, id), s.workspaces[id];
            && begun.out == Ok(())
            && begun.after == (if row.state in {WorkspacePending, WorkspaceActive}
                               then s.(workspaces := s.workspaces[id := row.(state := WorkspaceDeleting, turn := None, idle := None)]) else s)
            && (deleted.out.Ok? <==> row.state in {WorkspaceDeleting, WorkspaceDeleted})
            && (deleted.out.Ok? ==> deleted.after == s.(workspaces := s.workspaces[id := row.(state := WorkspaceDeleted)]))
  {
  }

  /** A workflow's current workspace is retired by name of the workflow. */
  lemma CurrentIsRetired(s: State, workflow: Id, id: Id)
    requires OneCurrent(s.workspaces) && id in s.workspaces && IsCurrentFor(s.workspaces[id], workflow)
    ensures RetireCurrent(s, workflow)
            == Step(s.(workspaces := s.workspaces[id := s.workspaces[id].(state := WorkspaceDeleting, turn := None, idle := None)]), Ok(id))
  {
    hide CurrentWorkspace;
    CurrentIs(s, workflow, id);
  }

  /** When the server starts exactly the current workspaces of workflows that have not ended are retired. */
  lemma IncompleteAreRetired(s: State, id: Id)
    requires id in s.workspaces
    ensures var t, row := RetireIncomplete(s).after, s.workspaces[id];
            && t.workspaces.Keys == s.workspaces.Keys
            && t.workspaces[id] ==
                 if row.state in {WorkspacePending, WorkspaceActive} && row.workflow in s.workflows
                    && s.workflows[row.workflow].state !in {Published, Failed, Cancelled}
                 then row.(state := WorkspaceDeleting, turn := None, idle := None) else row
  {
  }
}
