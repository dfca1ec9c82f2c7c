/** What many workers, claiming and expiring at any moment, cannot do to an action. */
module RunnableTheorems {
  import opened Base
  import opened RunnableQueue

  lemma {:induction false} AfterInv(q: Queue, ops: seq<Op>)
    requires Inv(q)
    ensures Inv(After(q, ops))
  {
    hide Inv, Next;
    if ops != [] {
      AfterInv(q, ops[..|ops| - 1]);
      NextInv(After(q, ops[..|ops| - 1]), ops[|ops| - 1]);
    }
  }

  /** A running action has a lease, and no other has one. */
  lemma {:induction false} RunningIsLeased(ops: seq<Op>, key: Id)
    requires key in After(Empty, ops).actions
    ensures After(Empty, ops).actions[key].state == Running <==> After(Empty, ops).actions[key].lease.Some?
  {
    hide After;
    AfterInv(Empty, ops);
    assert RowOk(After(Empty, ops), After(Empty, ops).actions[key]);
  }

  // ---- Finished rows ----

  predicate Frozen(a: Action) {
    a.state == Completed || (a.state == Failed && a.failure.Some? && a.failure.value.cls == ArtifactFault)
  }

  lemma FrozenStays(q: Queue, op: Op, key: Id)
    requires key in q.actions && Frozen(q.actions[key])
    ensures key in Next(q, op).after.actions && Next(q, op).after.actions[key] == q.actions[key]
  {
  }

  /** Completed rows and rows failed by their artifact never change: a completed revision digest is permanent. */
  lemma {:induction false} FrozenForever(q: Queue, ops: seq<Op>, key: Id)
    requires key in q.actions && Frozen(q.actions[key])
    ensures key in After(q, ops).actions && After(q, ops).actions[key] == q.actions[key]
  {
    hide Next;
    if ops != [] {
      FrozenForever(q, ops[..|ops| - 1], key);
      FrozenStays(After(q, ops[..|ops| - 1]), ops[|ops| - 1], key);
    }
  }

  /** And what it was completed with is on record, however the other tables grew. */
  lemma ResultIsOnRecord(ops: seq<Op>, more: seq<Op>, key: Id)
    requires var q := After(Empty, ops); key in q.actions && q.actions[key].state == Completed
    ensures var q, t := After(Empty, ops), After(After(Empty, ops), more);
            key in t.actions && t.actions[key].revision.Some? && t.actions[key].revision == q.actions[key].revision
            && exists id :: id in t.revisions && t.revisions[id] == t.actions[key].revision.value
  {
    hide After;
    var q := After(Empty, ops);
    AfterInv(Empty, ops);
    AfterInv(q, more);
    FrozenForever(q, more, key);
    assert RowOk(q, q.actions[key]) && RowOk(After(q, more), After(q, more).actions[key]);
  }

  /** One artifact report ends the action for good: it is failed with that very failure, and never claimed again. */
  lemma ArtifactReportIsFinal(q: Queue, key: Id, owner: Id, failure: Failure, now: Time, more: seq<Op>)
    requires failure.cls == ArtifactFault && ReportFailure(q, key, owner, failure, now).out.Ok?
    ensures var t := After(ReportFailure(q, key, owner, failure, now).after, more);
            && key in t.actions && t.actions[key].state == Failed && t.actions[key].failure == Some(failure)
            && t.actions[key].lease.None? && t.actions[key].nextRun == now && t.actions[key].attempt == q.actions[key].attempt
            && forall at :: !Claimable(t.actions[key], at)
  {
    FrozenForever(ReportFailure(q, key, owner, failure, now).after, more, key);
  }

  /** A materialization is completed for good, with the digest it was completed with. */
  lemma CompletionIsFinal(q: Queue, key: Id, owner: Id, spec: Id, id: Id, digest: Id, now: Time, more: seq<Op>)
    requires CompleteMaterialization(q, key, owner, spec, id, digest, now).out.Ok?
    ensures var t := After(CompleteMaterialization(q, key, owner, spec, id, digest, now).after, more);
            && key in t.actions && t.actions[key].state == Completed && t.actions[key].revision == Some(digest)
            && exists i :: i in t.revisions && t.revisions[i] == digest
  {
    hide After, Record;
    var t := CompleteMaterialization(q, key, owner, spec, id, digest, now).after;
    FrozenForever(t, more, key);
    RecordedThere(q.revisions, id, digest);
    AfterExtends(t, more);
    var i :| i in t.revisions && t.revisions[i] == digest;
    assert i in After(t, more).revisions;
  }

  lemma {:induction false} AfterExtends(q: Queue, ops: seq<Op>)
    ensures Extends(q, After(q, ops))
  {
    hide Next;
    if ops != [] {
      AfterExtends(q, ops[..|ops| - 1]);
      NextExtends(After(q, ops[..|ops| - 1]), ops[|ops| - 1]);
    }
  }

  // ---- What can still be completed ----

  ghost predicate CompletesBy(q: Queue, ops: seq<Op>, key: Id) {
    key in After(q, ops).actions && After(q, ops).actions[key].state == Completed
  }

  lemma AfterTwo(q: Queue, a: Op, b: Op)
    ensures After(q, [a, b]) == Next(Next(q, a).after, b).after
  {
    hide Next;
    assert [a, b][..1] == [a] && [a][..0] == [];
    assert After(q, [a][..0]) == q;
  }

  /** The instant from which anyone may claim a queued or running action. */
  function Due(a: Action): Time { if a.state == Running && a.lease.Some? then a.lease.value.expires else a.nextRun }

  /** Claimed when it is due, by anyone: live, and otherwise as it was. */
  lemma DueIsClaimed(q: Queue, key: Id)
    requires Inv(q) && key in q.actions && q.actions[key].state in {Queued, Running}
    ensures var a := q.actions[key];
            var t := Next(q, DoClaim(key, 0, 1, Due(a))).after;
            && t == q.(actions := t.actions) && Live(t.actions, key, 0, Due(a))
            && t.actions[key].phase == a.phase && t.actions[key].spec == a.spec && t.actions[key].revision == a.revision
            && t.actions[key].attempt == a.attempt + 1
  {
    assert RowOk(q, q.actions[key]);
  }

  lemma MaterializationCompletes(q: Queue, key: Id) returns (ops: seq<Op>)
    requires Inv(q) && key in q.actions && q.actions[key].state in {Queued, Running} && q.actions[key].phase == Materialize
    ensures CompletesBy(q, ops, key)
  {
    DueIsClaimed(q, key);
    hide Inv, Claim, After;
    var a := q.actions[key];
    var i: Id := 0;
    if q.revisions != map[] { i :| i in q.revisions; }
    var claim := DoClaim(key, 0, 1, Due(a));
    var finish := DoCompleteMaterialization(key, 0, a.spec, i, if i in q.revisions then q.revisions[i] else 0, Due(a));
    ops := [claim, finish];
    AfterTwo(q, claim, finish);
  }

  lemma VerificationCompletes(q: Queue, key: Id) returns (ops: seq<Op>)
    requires Inv(q) && key in q.actions && q.actions[key].state in {Queued, Running} && q.actions[key].phase == Verify
    ensures CompletesBy(q, ops, key)
  {
    DueIsClaimed(q, key);
    assert RowOk(q, q.actions[key]);
    hide Inv, Claim, After;
    var a := q.actions[key];
    var r: Id := 0;
    if q.reports != map[] { r :| r in q.reports; }
    var claim := DoClaim(key, 0, 1, Due(a));
    var finish := DoCompleteVerification(key, 0, Report(r, 0, a.revision.value, a.spec, a.attempt + 1, []), Due(a));
    ops := [claim, finish];
    AfterTwo(q, claim, finish);
  }

  lemma WaitingCompletes(q: Queue, key: Id) returns (ops: seq<Op>)
    requires Inv(q) && key in q.actions && q.actions[key].state in {Queued, Running}
    ensures CompletesBy(q, ops, key)
  {
    hide Inv, CompletesBy;
    if q.actions[key].phase == Materialize { ops := MaterializationCompletes(q, key); } else { ops := VerificationCompletes(q, key); }
  }

  lemma RescheduledWaits(q: Queue, key: Id) returns (source: Op, schedule: Op)
    requires Inv(q) && key in q.actions && GivenUpByTheWorld(q.actions[key])
    ensures var t := Next(Next(q, source).after, schedule).after; key in t.actions && t.actions[key].state == Queued
  {
    var a := q.actions[key];
    assert RowOk(q, a);
    source := DoStoreSource(0);
    if a.phase == Materialize {
      schedule := DoScheduleMaterialization(key, a.spec, 0, a.nextRun);
    } else {
      var i :| i in q.revisions && q.revisions[i] == a.revision.value;
      schedule := DoScheduleVerification(key, a.spec, i, q.revisions[i], a.nextRun);
    }
  }

  lemma {:induction false} AfterMore(q: Queue, a: seq<Op>, b: seq<Op>)
    ensures After(q, a + b) == After(After(q, a), b)
  {
    hide Next;
    if b == [] {
      assert a + b == a;
    } else {
      AfterMore(q, a, b[..|b| - 1]);
      assert (a + b)[..|a + b| - 1] == a + b[..|b| - 1];
    }
  }

  /** In every run an action can still be completed exactly when its artifact has not failed it: whoever held it,
      however often the infrastructure gave up. */
  lemma CanBeCompletedIff(ops: seq<Op>, key: Id)
    requires key in After(Empty, ops).actions
    ensures var q := After(Empty, ops);
            (exists more :: CompletesBy(q, more, key))
            <==> !(q.actions[key].state == Failed && q.actions[key].failure.Some? && q.actions[key].failure.value.cls == ArtifactFault)
  {
    hide Next, After, Inv;
    var q := After(Empty, ops);
    AfterInv(Empty, ops) by { EmptyInv(); }
    RowIs(q, key);
    if q.actions[key].state == Failed && q.actions[key].failure.value.cls == ArtifactFault {
      forall more ensures !CompletesBy(q, more, key) { FrozenForever(q, more, key); }
    } else if q.actions[key].state == Completed {
      AfterNone(q);
      assert CompletesBy(q, [], key);
    } else if q.actions[key].state == Failed {
      var source, schedule := RescheduledWaits(q, key);
      AfterTwo(q, source, schedule);
      AfterInv(q, [source, schedule]);
      var finish := WaitingCompletes(After(q, [source, schedule]), key);
      AfterMore(q, [source, schedule], finish);
      assert CompletesBy(q, [source, schedule] + finish, key);
    } else {
      var finish := WaitingCompletes(q, key);
    }
  }

  lemma EmptyInv()
    ensures Inv(Empty)
  {
  }

  lemma AfterNone(q: Queue)
    ensures After(q, []) == q
  {
  }

  lemma RowIs(q: Queue, key: Id)
    requires Inv(q) && key in q.actions
    ensures q.actions[key].state == Failed ==> q.actions[key].failure.Some?
  {
    assert RowOk(q, q.actions[key]);
  }

  // ---- Leases ----

  /** A claim or renewal holds for its time to the instant: until then its owner is live, and from then on anyone may claim. */
  lemma LeaseLasts(q: Queue, key: Id, owner: Id, ttl: Time, now: Time, renewed: bool, at: Time)
    requires var op := if renewed then DoRenew(key, owner, ttl, now) else DoClaim(key, owner, ttl, now); Next(q, op).out.Ok?
    ensures var op := if renewed then DoRenew(key, owner, ttl, now) else DoClaim(key, owner, ttl, now);
            var t := Next(q, op).after.actions;
            && (Live(t, key, owner, at) <==> at < now + ttl) && (Claimable(t[key], at) <==> now + ttl <= at)
            && key in q.actions && t[key].attempt == q.actions[key].attempt + (if renewed then 0 else 1)
  {
  }

  /** The converse of DeadCredential: with a live lease its owner's requests are granted, a result when it is one for
      this action. */
  lemma LiveCredential(q: Queue, key: Id, owner: Id, now: Time, ttl: Time, failure: Failure, capture: Id, id: Id, digest: Id, report: Report)
    requires Inv(q) && Live(q.actions, key, owner, now)
    ensures Renew(q, key, owner, ttl, now).out.Ok? <==> ttl > 0
    ensures ReportFailure(q, key, owner, failure, now).out.Ok? <==> failure.code != ""
    ensures StoreOutput(q, key, owner, capture, now).out.Ok? <==> q.actions[key].phase == Verify
    ensures StoreOutput(q, key, owner, capture, now).out.Ok? ==> capture in StoreOutput(q, key, owner, capture, now).after.outputs
    ensures var a := q.actions[key];
            CompleteMaterialization(q, key, owner, a.spec, id, digest, now).out.Ok?
            <==> a.phase == Materialize && (id in q.revisions ==> digest in q.revisions.Values)
    ensures var a := q.actions[key];
            CompleteVerification(q, key, owner, report, now).out.Ok?
            <==> && a.phase == Verify && report.spec == a.spec && Some(report.revision) == a.revision && report.attempt == a.attempt
                 && OutputsStored(q.outputs, report)
                 && (report.id in q.reports || forall k <- q.reports :: q.reports[k].digest != report.digest)
  {
    assert RowOk(q, q.actions[key]);
  }

  /** The action claimed first is claimable, and no other that could be claimed has waited longer: it was due earlier,
      or at the same time and created earlier. */
  lemma OldestFirst(q: Queue, locked: set<Id>, now: Time, k: Id, other: Id)
    requires IsFirst(ClaimQueue(q.actions, locked, now), k)
    requires other in q.actions && other !in locked && Claimable(q.actions[other], now)
    ensures k in q.actions && k !in locked && Claimable(q.actions[k], now)
    ensures q.actions[k].nextRun <= q.actions[other].nextRun
    ensures q.actions[k].nextRun == q.actions[other].nextRun ==> q.actions[k].created <= q.actions[other].created
    ensures q.actions[k].nextRun == q.actions[other].nextRun && q.actions[k].created == q.actions[other].created ==> k <= other
  {
    var queue := ClaimQueue(q.actions, locked, now);
    assert other in queue && queue[other] == Place(q.actions[other].nextRun, q.actions[other].created, other);
  }

  /** A new action waits from the instant it was scheduled at; one the infrastructure gave up on starts over; any other is left alone. */
  lemma SchedulingStarts(q: Queue, op: Op)
    requires (op.DoScheduleMaterialization? || op.DoScheduleVerification?) && Next(q, op).out.Ok?
    ensures var t := Next(q, op).after.actions;
            && op.key in t
            && (op.key !in q.actions || GivenUpByTheWorld(q.actions[op.key]) ==>
                  t[op.key].attempt == 0 && t[op.key].failure.None? && forall at :: Claimable(t[op.key], at) <==> op.now <= at)
            && (op.key in q.actions && !GivenUpByTheWorld(q.actions[op.key]) ==> t == q.actions)
            && t[op.key].spec == op.spec && (t[op.key].phase == Verify <==> op.DoScheduleVerification?)
  {
  }

  /** The owner has no lease on the action. */
  ghost predicate Dispossessed(q: Queue, key: Id, owner: Id) {
    key in q.actions && (q.actions[key].lease.Some? ==> q.actions[key].lease.value.owner != owner)
  }

  lemma DispossessedStays(q: Queue, op: Op, key: Id, owner: Id)
    requires Dispossessed(q, key, owner) && !(op.DoClaim? && op.key == key && op.owner == owner)
    ensures Dispossessed(Next(q, op).after, key, owner)
  {
  }

  /** Whoever lost an action can do nothing to it until it claims again. */
  lemma {:induction false} DispossessedForever(q: Queue, ops: seq<Op>, key: Id, owner: Id)
    requires Dispossessed(q, key, owner)
    requires forall op <- ops :: !(op.DoClaim? && op.key == key && op.owner == owner)
    ensures Dispossessed(After(q, ops), key, owner)
    ensures forall now :: !Live(After(q, ops).actions, key, owner, now)
  {
    hide Next;
    if ops != [] {
      DispossessedForever(q, ops[..|ops| - 1], key, owner);
      DispossessedStays(After(q, ops[..|ops| - 1]), ops[|ops| - 1], key, owner);
    }
  }

  /** Without a live lease nothing done in the owner's name is accepted, or changes the queue. */
  lemma DeadCredential(q: Queue, key: Id, owner: Id, op: Op)
    requires forall now :: !Live(q.actions, key, owner, now)
    requires match op
             case DoRenew(k, o, _, _) => k == key && o == owner
             case DoStoreOutput(k, o, _, _) => k == key && o == owner
             case DoReportFailure(k, o, _, _) => k == key && o == owner
             case DoCompleteMaterialization(k, o, _, _, _, _) => k == key && o == owner
             case DoCompleteVerification(k, o, _, _) => k == key && o == owner
             case _ => false
    ensures Next(q, op).out.Err? && Next(q, op).after == q
  {
  }

  /** After a different owner takes over an expired lease the old owner is out, until it claims again. */
  lemma {:induction false} TakeoverLocksOut(q: Queue, key: Id, earlier: Id, owner: Id, ttl: Time, now: Time, more: seq<Op>)
    requires Claim(q, key, owner, ttl, now).out.Ok? && owner != earlier
    requires forall op <- more :: !(op.DoClaim? && op.key == key && op.owner == earlier)
    ensures forall at :: !Live(After(Claim(q, key, owner, ttl, now).after, more).actions, key, earlier, at)
  {
    DispossessedForever(Claim(q, key, owner, ttl, now).after, more, key, earlier);
  }

  /** The fence asks for the owner's name only: whether a superseded claim still passes is
      exactly whether the action was taken over under the same name. */
  lemma FenceIsTheName(q: Queue, key: Id, first: Id, second: Id, ttl: Time, now: Time, at: Time)
    requires Claim(q, key, second, ttl, now).out.Ok? && now <= at < now + ttl
    ensures Live(Claim(q, key, second, ttl, now).after.actions, key, first, at) <==> first == second
  {
  }

  /** So a failure report under an older claim of the same owner ends its newer one ... */
  lemma StaleReportPasses(q: Queue, key: Id, owner: Id, ttl: Time, t0: Time, t1: Time, failure: Failure)
    requires Claim(q, key, owner, ttl, t0).out.Ok? && t0 + ttl <= t1 && failure.code != ""
    ensures var again := Claim(Claim(q, key, owner, ttl, t0).after, key, owner, ttl, t1);
            && again.out == Ok(q.actions[key].attempt + 2)
            && ReportFailure(again.after, key, owner, failure, t1).out.Ok?
            && ReportFailure(again.after, key, owner, failure, t1).after.actions[key].lease.None?
  {
  }

  /** ... but a verification report must carry the current attempt. What it says is on record exactly when its
      identity is not bound to another report. */
  lemma VerificationIsFenced(q: Queue, key: Id, owner: Id, report: Report, now: Time)
    requires CompleteVerification(q, key, owner, report, now).out.Ok?
    ensures key in q.actions && q.actions[key].attempt == report.attempt && q.actions[key].revision == Some(report.revision)
    ensures var after := CompleteVerification(q, key, owner, report, now).after;
            && OutputsStored(q.outputs, report) && after.actions[key].state == Completed && report.id in after.reports
            && (after.reports[report.id] == report <==> report.id in q.reports ==> q.reports[report.id] == report)
  {
  }

  /** Every output a report refers to, in whatever phase, action or assertion, must be stored. */
  lemma StoredIsEveryOne(outputs: set<Id>, report: Report)
    ensures OutputsStored(outputs, report)
            <==> forall phase, captures, c | phase in report.phases && captures in phase.actions + phase.assertions && c in captures :: c in outputs
  {
    if OutputsStored(outputs, report) {
      forall phase, captures, c | phase in report.phases && captures in phase.actions + phase.assertions && c in captures ensures c in outputs {
        var i :| 0 <= i < |report.phases| && report.phases[i] == phase;
        assert PhaseStored(outputs, phase);
      }
    } else {
      var i :| 0 <= i < |report.phases| && !PhaseStored(outputs, report.phases[i]);
      var phase := report.phases[i];
      assert phase in report.phases;
      if exists j, k :: 0 <= j < |phase.actions| && 0 <= k < |phase.actions[j]| && phase.actions[j][k] !in outputs {
        var j, k :| 0 <= j < |phase.actions| && 0 <= k < |phase.actions[j]| && phase.actions[j][k] !in outputs;
        assert phase.actions[j] in phase.actions + phase.assertions && phase.actions[j][k] in phase.actions[j];
      } else {
        var j, k :| 0 <= j < |phase.assertions| && 0 <= k < |phase.assertions[j]| && phase.assertions[j][k] !in outputs;
        assert phase.assertions[j] in phase.actions + phase.assertions && phase.assertions[j][k] in phase.assertions[j];
      }
    }
  }

  // ---- Attempts ----

  /** Only scheduling a row that infrastructure failed starts a new cycle; nothing else lowers the attempt. */
  lemma NewCycle(q: Queue, op: Op, key: Id)
    requires key in q.actions && Next(q, op).after.actions[key].attempt < q.actions[key].attempt
    ensures GivenUpByTheWorld(q.actions[key])
    ensures (op.DoScheduleMaterialization? || op.DoScheduleVerification?) && op.key == key
    ensures Next(q, op).after.actions[key].attempt == 0 && Next(q, op).after.actions[key].state == Queued
  {
  }

  /** Claiming counts, and never fails a row; only an accepted report does. */
  lemma OnlyReportsFail(q: Queue, op: Op, key: Id)
    requires key in q.actions && q.actions[key].state != Failed && Next(q, op).after.actions[key].state == Failed
    ensures op.DoReportFailure? && op.key == key && Live(q.actions, key, op.owner, op.now)
    ensures op.failure.cls == InfrastructureFault ==> q.actions[key].attempt >= MaxAttempts
  {
  }

  ghost predicate CountsReport(q: Queue, op: Op, key: Id) {
    op.DoReportFailure? && op.key == key && op.failure.cls == InfrastructureFault && Next(q, op).out.Ok?
  }

  ghost predicate StartsCycle(q: Queue, op: Op, key: Id) {
    (op.DoScheduleMaterialization? || op.DoScheduleVerification?) && op.key == key
    && (key !in q.actions || GivenUpByTheWorld(q.actions[key])) && Next(q, op).out.Ok?
  }

  /** Infrastructure reports accepted for the action since it was last scheduled into a new cycle. */
  ghost function Reports(ops: seq<Op>, key: Id): nat {
    if ops == [] then 0
    else
      var q := After(Empty, ops[..|ops| - 1]);
      var op := ops[|ops| - 1];
      if StartsCycle(q, op, key) then 0
      else if CountsReport(q, op, key) then Reports(ops[..|ops| - 1], key) + 1
      else Reports(ops[..|ops| - 1], key)
  }

  ghost predicate Patience(a: Action, reports: nat) {
    && reports <= MaxAttempts && reports <= a.attempt
    && (a.state == Queued || a.state == Running ==> reports < MaxAttempts)
    && (a.state == Running ==> reports < a.attempt)
  }

  lemma PatienceStep(q: Queue, op: Op, key: Id, reports: nat)
    requires key in q.actions && Patience(q.actions[key], reports)
    ensures key in Next(q, op).after.actions
    ensures Patience(Next(q, op).after.actions[key],
                     if StartsCycle(q, op, key) then 0 else if CountsReport(q, op, key) then reports + 1 else reports)
  {
  }

  lemma FirstPatience(q: Queue, op: Op, key: Id)
    requires key !in q.actions
    ensures key in Next(q, op).after.actions ==> StartsCycle(q, op, key) && Patience(Next(q, op).after.actions[key], 0)
    ensures key !in Next(q, op).after.actions ==> !CountsReport(q, op, key) && !StartsCycle(q, op, key)
  {
  }

  /** Patience is bounded: between two cycles at most eight infrastructure reports are accepted,
      each of a claim of its own, whatever the number of takeovers. */
  lemma {:induction false} PatienceIsBounded(ops: seq<Op>, key: Id)
    ensures Reports(ops, key) <= MaxAttempts
    ensures if key in After(Empty, ops).actions then Patience(After(Empty, ops).actions[key], Reports(ops, key)) else Reports(ops, key) == 0
  {
    hide Next, Patience, StartsCycle, CountsReport;
    if ops != [] {
      var before := ops[..|ops| - 1];
      var q := After(Empty, before);
      PatienceIsBounded(before, key);
      if key in q.actions {
        PatienceStep(q, ops[|ops| - 1], key, Reports(before, key));
        PatienceMax(After(Empty, ops).actions[key], Reports(ops, key));
      } else {
        FirstPatience(q, ops[|ops| - 1], key);
      }
    }
  }

  lemma PatienceMax(a: Action, reports: nat)
    requires Patience(a, reports)
    ensures reports <= MaxAttempts
  {
  }

  /** The report that exhausts patience says so, and it is the claim count that decides; until then the action waits
      out its delay and can be claimed again. */
  lemma ExhaustionIsNamed(q: Queue, key: Id, owner: Id, failure: Failure, now: Time)
    requires failure.cls == InfrastructureFault && ReportFailure(q, key, owner, failure, now).out.Ok?
    ensures var a := ReportFailure(q, key, owner, failure, now).after.actions[key];
            && a.attempt == q.actions[key].attempt
            && if q.actions[key].attempt < MaxAttempts
               then a.state == Queued && now < a.nextRun <= now + RetryCap && a.failure == Some(failure)
                    && a.nextRun == now + Backoff(q.actions[key].attempt) && forall at :: Claimable(a, at) <==> a.nextRun <= at
               else a.state == Failed && a.failure == Some(Failure(InfrastructureFault, AttemptsExhausted)) && forall at :: !Claimable(a, at)
  {
    BackoffGrows(q.actions[key].attempt, q.actions[key].attempt);
  }

  /** The delays in full: doubling from five seconds, and five minutes from the seventh attempt on. */
  lemma Delays(attempt: nat)
    ensures Backoff(attempt)
            == match attempt
               case 0 => 5 case 1 => 5 case 2 => 10 case 3 => 20 case 4 => 40 case 5 => 80 case 6 => 160 case _ => 300
  {
    assert Doubled(5, 0) == 5 && Doubled(5, 1) == 10 && Doubled(5, 2) == 20 && Doubled(5, 3) == 40;
    assert Doubled(5, 4) == 80 && Doubled(5, 5) == 160 && Doubled(5, 6) == 320;
    if attempt >= 7 { DoubledGrows(5, 6, attempt - 1); }
  }
}
