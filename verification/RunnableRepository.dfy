/** The queue's repository: each method is one transaction on the tables. */
module RunnableRepository {
  import opened Base
  import opened RunnableQueue

  class Repository {
    var db: Queue

    ghost predicate Valid()
      reads this
    {
      Inv(db)
    }

    constructor ()
      ensures Valid() && db == Empty
    {
      db := Empty;
    }

    method ScheduleMaterialization(key: Id, spec: Id, source: Id, now: Time) returns (r: Outcome<()>)
      requires Valid()
      modifies this
      ensures Valid()
      ensures Step(db, r) == RunnableQueue.ScheduleMaterialization(old(db), key, spec, source, now)
    {
      hide Inv;
      NextInv(db, DoScheduleMaterialization(key, spec, source, now));
      if source !in db.sources { return Err(NotFound); }
      if !SameIdentity(db.actions, key, Materialize, spec) { return Err(Constraint); }
      if key !in db.actions {
        db := db.(actions := db.actions[key := NewAction(Materialize, spec, None, now)]);
      } else if GivenUpByTheWorld(db.actions[key]) {
        db := db.(actions := db.actions[key := Rescheduled(db.actions[key], now)]);
      }
      return Ok(());
    }

    method ScheduleVerification(key: Id, spec: Id, id: Id, digest: Id, now: Time) returns (r: Outcome<()>)
      requires Valid()
      modifies this
      ensures Valid()
      ensures Step(db, r) == RunnableQueue.ScheduleVerification(old(db), key, spec, id, digest, now)
    {
      hide Inv;
      NextInv(db, DoScheduleVerification(key, spec, id, digest, now));
      if id !in db.revisions || db.revisions[id] != digest { return Err(NotFound); }
      if !SameIdentity(db.actions, key, Verify, spec) { return Err(Constraint); }
      if key !in db.actions {
        db := db.(actions := db.actions[key := NewAction(Verify, spec, Some(digest), now)]);
      } else if GivenUpByTheWorld(db.actions[key]) {
        db := db.(actions := db.actions[key := Rescheduled(db.actions[key], now)]);
      }
      return Ok(());
    }

    /** The first claimable row no other worker has locked. */
    method Claim(locked: set<Id>, owner: Id, ttl: Time, now: Time) returns (r: Option<Id>)
      requires Valid() && ttl > 0
      modifies this
      ensures Valid()
      ensures var queue := ClaimQueue(old(db).actions, locked, now);
              if queue == map[] then r == None && db == old(db)
              else r.Some? && IsFirst(queue, r.value) && db == RunnableQueue.Claim(old(db), r.value, owner, ttl, now).after
    {
      hide Inv;
      var queue := ClaimQueue(db.actions, locked, now);
      if queue == map[] { return None; }
      FirstExists(queue);
      var key :| key in queue && IsFirst(queue, key);
      NextInv(db, DoClaim(key, owner, ttl, now));
      var a := db.actions[key];
      a := a.(attempt := a.attempt + 1);
      a := a.(state := Running, lease := Some(Lease(owner, now + ttl)));
      db := db.(actions := db.actions[key := a]);
      return Some(key);
    }

    method Renew(key: Id, owner: Id, ttl: Time, now: Time) returns (r: Outcome<()>)
      requires Valid()
      modifies this
      ensures Valid()
      ensures Step(db, r) == RunnableQueue.Renew(old(db), key, owner, ttl, now)
    {
      hide Inv;
      NextInv(db, DoRenew(key, owner, ttl, now));
      if ttl <= 0 || !Live(db.actions, key, owner, now) { return Err(LeaseLost); }
      db := db.(actions := db.actions[key := db.actions[key].(lease := Some(Lease(owner, now + ttl)))]);
      return Ok(());
    }

    method StoreOutput(key: Id, owner: Id, capture: Id, now: Time) returns (r: Outcome<()>)
      requires Valid()
      modifies this
      ensures Valid()
      ensures Step(db, r) == RunnableQueue.StoreOutput(old(db), key, owner, capture, now)
    {
      hide Inv;
      NextInv(db, DoStoreOutput(key, owner, capture, now));
      if !Live(db.actions, key, owner, now) || db.actions[key].phase != Verify { return Err(LeaseLost); }
      if db.actions[key].revision.None? { return Err(InvalidState); }
      db := db.(outputs := db.outputs + {capture});
      return Ok(());
    }

    method ReportFailure(key: Id, owner: Id, failure: Failure, now: Time) returns (r: Outcome<()>)
      requires Valid()
      modifies this
      ensures Valid()
      ensures Step(db, r) == RunnableQueue.ReportFailure(old(db), key, owner, failure, now)
    {
      hide Inv, Backoff;
      NextInv(db, DoReportFailure(key, owner, failure, now));
      if failure.code == "" { return Err(Invalid); }
      if !Live(db.actions, key, owner, now) { return Err(LeaseLost); }
      var a := db.actions[key];
      var state, retryAt, code := Failed, now, failure.code;
      if failure.cls == InfrastructureFault && a.attempt < MaxAttempts {
        var delay := RetryBackoff(a.attempt);
        state := Queued;
        retryAt := now + delay;
      }
      if failure.cls == InfrastructureFault && a.attempt >= MaxAttempts {
        code := AttemptsExhausted;
      }
      db := db.(actions := db.actions[key := a.(state := state, lease := None, nextRun := retryAt, failure := Some(failure.(code := code)))]);
      return Ok(());
    }

    method CompleteMaterialization(key: Id, owner: Id, spec: Id, id: Id, digest: Id, now: Time) returns (r: Outcome<()>)
      requires Valid()
      modifies this
      ensures Valid()
      ensures Step(db, r) == RunnableQueue.CompleteMaterialization(old(db), key, owner, spec, id, digest, now)
    {
      hide Inv;
      NextInv(db, DoCompleteMaterialization(key, owner, spec, id, digest, now));
      var tx := db;
      if !Live(tx.actions, key, owner, now) || tx.actions[key].phase != Materialize { return Err(LeaseLost); }
      if tx.actions[key].spec != spec { return Err(Invalid); }
      if forall i <- tx.revisions :: tx.revisions[i] != digest {
        if id in tx.revisions { return Err(Constraint); }
        tx := tx.(revisions := tx.revisions[id := digest]);
      }
      tx := tx.(actions := tx.actions[key := tx.actions[key].(state := Completed, revision := Some(digest), lease := None)]);
      db := tx;
      return Ok(());
    }

    /** Two nested loops over the phases' actions and assertions, each over its references. */
    method ReferencesStored(references: seq<Id>) returns (ok: bool)
      ensures ok <==> forall j | 0 <= j < |references| :: references[j] in db.outputs
    {
      for j := 0 to |references|
        invariant forall i | 0 <= i < j :: references[i] in db.outputs
      {
        if references[j] !in db.outputs { return false; }
      }
      return true;
    }

    method ListsStored(lists: seq<seq<Id>>) returns (ok: bool)
      ensures ok <==> forall i, j | 0 <= i < |lists| && 0 <= j < |lists[i]| :: lists[i][j] in db.outputs
    {
      for i := 0 to |lists|
        invariant forall k, j | 0 <= k < i && 0 <= j < |lists[k]| :: lists[k][j] in db.outputs
      {
        ok := ReferencesStored(lists[i]);
        if !ok { return; }
      }
      return true;
    }

    method ReportStored(report: Report) returns (ok: bool)
      ensures ok <==> OutputsStored(db.outputs, report)
    {
      for i := 0 to |report.phases|
        invariant forall k | 0 <= k < i :: PhaseStored(db.outputs, report.phases[k])
      {
        ok := ListsStored(report.phases[i].actions);
        if !ok {
          assert !PhaseStored(db.outputs, report.phases[i]);
          return;
        }
        ok := ListsStored(report.phases[i].assertions);
        if !ok {
          assert !PhaseStored(db.outputs, report.phases[i]);
          return;
        }
      }
      return true;
    }

    method CompleteVerification(key: Id, owner: Id, report: Report, now: Time) returns (r: Outcome<()>)
      requires Valid()
      modifies this
      ensures Valid()
      ensures Step(db, r) == RunnableQueue.CompleteVerification(old(db), key, owner, report, now)
    {
      hide Inv, OutputsStored;
      NextInv(db, DoCompleteVerification(key, owner, report, now));
      var tx := db;
      if !Live(tx.actions, key, owner, now) || tx.actions[key].phase != Verify { return Err(LeaseLost); }
      var a := tx.actions[key];
      if a.spec != report.spec || a.revision != Some(report.revision) || a.attempt != report.attempt { return Err(Invalid); }
      var stored := ReportStored(report);
      if !stored { return Err(NotFound); }
      if report.id !in tx.reports {
        if exists k <- tx.reports :: tx.reports[k].digest == report.digest { return Err(Constraint); }
        tx := tx.(reports := tx.reports[report.id := report]);
      }
      tx := tx.(actions := tx.actions[key := a.(state := Completed, lease := None)]);
      db := tx;
      return Ok(());
    }
  }
}
