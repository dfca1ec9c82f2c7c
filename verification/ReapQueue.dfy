/** The queue of resource reaps: a claim is fenced by its attempt, its owner and its exact expiry. */
module ReapQueue {
  import opened Base

  datatype ReapState = Queued | Claimed | Succeeded

  datatype Reap = Reap(
    revision: Id, state: ReapState, attempt: nat, owner: Option<Id>, expires: Option<Time>, nextAttempt: Time, created: Time)

  /** What the claimer holds: the record as it was claimed. */
  datatype Claim = Claim(key: Id, revision: Id, attempt: nat, owner: Id, expires: Time)

  datatype Step<+T> = Step(after: map<Id, Reap>, out: Outcome<T>)

  /** ON CONFLICT DO NOTHING; a repeated request must name the same revision. */
  function EnqueueReap(reaps: map<Id, Reap>, key: Id, revision: Id, now: Time): Step<()> {
    if key !in reaps then Step(reaps[key := Reap(revision, Queued, 0, None, None, now, now)], Ok(()))
    else if reaps[key].revision != revision then Step(reaps, Err(Conflict))
    else Step(reaps, Ok(()))
  }

  predicate Claimable(r: Reap, now: Time) {
    || (r.state == Queued && r.nextAttempt <= now)
    || (r.state == Claimed && r.expires.Some? && r.expires.value <= now)
  }

  function ClaimQueue(reaps: map<Id, Reap>, locked: set<Id>, now: Time): map<Id, Place> {
    map k | k in reaps && k !in locked && Claimable(reaps[k], now) :: Place(reaps[k].nextAttempt, reaps[k].created, k)
  }

  function ClaimReap(reaps: map<Id, Reap>, key: Id, owner: Id, ttl: Time, now: Time): Step<Claim> {
    if ttl <= 0 || key !in reaps || !Claimable(reaps[key], now) then Step(reaps, Err(Invalid))
    else
      var r := reaps[key];
      Step(reaps[key := r.(state := Claimed, attempt := r.attempt + 1, owner := Some(owner), expires := Some(now + ttl))],
           Ok(Claim(key, r.revision, r.attempt + 1, owner, now + ttl)))
  }

  /** The fence, in full. */
  predicate Holds(reaps: map<Id, Reap>, c: Claim, now: Time) {
    && now < c.expires && c.key in reaps
    && var r := reaps[c.key];
       && r.state == Claimed && r.attempt == c.attempt && r.owner == Some(c.owner) && r.expires == Some(c.expires)
       && r.revision == c.revision
  }

  function CompleteReap(reaps: map<Id, Reap>, c: Claim, succeeded: bool, now: Time, retryAt: Time): Step<()> {
    if !Holds(reaps, c, now) then Step(reaps, Err(LeaseLost))
    else
      var r := reaps[c.key];
      Step(reaps[c.key := r.(state := if succeeded then Succeeded else Queued, owner := None, expires := None,
                             nextAttempt := if succeeded then r.nextAttempt else retryAt)], Ok(()))
  }

  // ---- Runs ----

  datatype Op =
    | DoEnqueue(key: Id, revision: Id, now: Time)
    | DoClaim(key: Id, owner: Id, ttl: Time, now: Time)
    | DoComplete(claim: Claim, succeeded: bool, now: Time, retryAt: Time)

  function Next(reaps: map<Id, Reap>, op: Op): map<Id, Reap> {
    match op
    case DoEnqueue(key, revision, now) => EnqueueReap(reaps, key, revision, now).after
    case DoClaim(key, owner, ttl, now) => ClaimReap(reaps, key, owner, ttl, now).after
    case DoComplete(claim, succeeded, now, retryAt) => CompleteReap(reaps, claim, succeeded, now, retryAt).after
  }

  function After(reaps: map<Id, Reap>, ops: seq<Op>): map<Id, Reap> {
    if ops == [] then reaps else Next(After(reaps, ops[..|ops| - 1]), ops[|ops| - 1])
  }

  /** The claim's turn is over: the row was claimed again, or is no longer claimed. */
  ghost predicate Over(reaps: map<Id, Reap>, c: Claim) {
    && c.key in reaps
    && (reaps[c.key].attempt > c.attempt || (reaps[c.key].attempt == c.attempt && reaps[c.key].state != Claimed))
  }

  lemma OverStays(reaps: map<Id, Reap>, op: Op, c: Claim)
    requires Over(reaps, c)
    ensures Over(Next(reaps, op), c)
  {
  }

  lemma {:induction false} OverForever(reaps: map<Id, Reap>, ops: seq<Op>, c: Claim)
    requires Over(reaps, c)
    ensures Over(After(reaps, ops), c)
    ensures forall now :: !Holds(After(reaps, ops), c, now)
  {
    hide Next;
    if ops != [] {
      OverForever(reaps, ops[..|ops| - 1], c);
      OverStays(After(reaps, ops[..|ops| - 1]), ops[|ops| - 1], c);
    }
  }

  /** A claim takes effect at most once. */
  lemma CompletesOnce(reaps: map<Id, Reap>, c: Claim, succeeded: bool, now: Time, retryAt: Time, more: seq<Op>,
                      again: bool, at: Time, retry: Time)
    requires CompleteReap(reaps, c, succeeded, now, retryAt).out.Ok?
    ensures var later := After(CompleteReap(reaps, c, succeeded, now, retryAt).after, more);
            CompleteReap(later, c, again, at, retry) == Step(later, Err(LeaseLost))
  {
    OverForever(CompleteReap(reaps, c, succeeded, now, retryAt).after, more, c);
  }

  /** And never after it was superseded, even by a claim of the same owner. */
  lemma SupersededIsOver(reaps: map<Id, Reap>, first: Claim, owner: Id, ttl: Time, now: Time, more: seq<Op>,
                         succeeded: bool, at: Time, retryAt: Time)
    requires first.key in reaps && first.attempt <= reaps[first.key].attempt
    requires ClaimReap(reaps, first.key, owner, ttl, now).out.Ok?
    ensures var later := After(ClaimReap(reaps, first.key, owner, ttl, now).after, more);
            CompleteReap(later, first, succeeded, at, retryAt) == Step(later, Err(LeaseLost))
  {
    OverForever(ClaimReap(reaps, first.key, owner, ttl, now).after, more, first);
  }

  /** A claim that was issued counts no further than its row, ever after. */
  lemma {:induction false} IssuedIsCounted(reaps: map<Id, Reap>, key: Id, owner: Id, ttl: Time, now: Time, more: seq<Op>)
    requires ClaimReap(reaps, key, owner, ttl, now).out.Ok?
    ensures var step := ClaimReap(reaps, key, owner, ttl, now);
            key in After(step.after, more) && step.out.value.attempt <= After(step.after, more)[key].attempt
  {
    hide ClaimReap;
    var step := ClaimReap(reaps, key, owner, ttl, now);
    if more == [] {
      ClaimCounts(reaps, key, owner, ttl, now);
    } else {
      IssuedIsCounted(reaps, key, owner, ttl, now, more[..|more| - 1]);
      AttemptsGrow(After(step.after, more[..|more| - 1]), more[|more| - 1], key);
    }
  }

  lemma ClaimCounts(reaps: map<Id, Reap>, key: Id, owner: Id, ttl: Time, now: Time)
    requires ClaimReap(reaps, key, owner, ttl, now).out.Ok?
    ensures var step := ClaimReap(reaps, key, owner, ttl, now);
            key in step.after && step.after[key].attempt == step.out.value.attempt
  {
  }

  lemma AttemptsGrow(reaps: map<Id, Reap>, op: Op, key: Id)
    requires key in reaps
    ensures key in Next(reaps, op) && reaps[key].attempt <= Next(reaps, op)[key].attempt
  {
  }

  /** A reap that succeeded stays so. */
  lemma {:induction false} SucceededForever(reaps: map<Id, Reap>, ops: seq<Op>, key: Id)
    requires key in reaps && reaps[key].state == Succeeded
    ensures key in After(reaps, ops) && After(reaps, ops)[key] == reaps[key]
  {
    hide Next;
    if ops != [] {
      SucceededForever(reaps, ops[..|ops| - 1], key);
      SucceededStays(After(reaps, ops[..|ops| - 1]), ops[|ops| - 1], key);
    }
  }

  lemma SucceededStays(reaps: map<Id, Reap>, op: Op, key: Id)
    requires key in reaps && reaps[key].state == Succeeded
    ensures key in Next(reaps, op) && Next(reaps, op)[key] == reaps[key]
  {
  }

  /** A reap that is due can be claimed, by one more attempt. The claim holds to its expiry, to the instant, and no other
      does; from then on anyone may claim. */
  lemma ClaimLasts(reaps: map<Id, Reap>, key: Id, owner: Id, ttl: Time, now: Time, at: Time, other: Claim)
    ensures var step := ClaimReap(reaps, key, owner, ttl, now);
            && (step.out.Ok? <==> ttl > 0 && key in reaps && Claimable(reaps[key], now))
            && (step.out.Ok? ==>
                  && step.out.value == Claim(key, reaps[key].revision, reaps[key].attempt + 1, owner, now + ttl)
                  && (Holds(step.after, step.out.value, at) <==> at < now + ttl)
                  && (Claimable(step.after[key], at) <==> now + ttl <= at)
                  && (other.key == key && Holds(step.after, other, at) ==> other == step.out.value))
  {
  }

  /** While it holds, a report on it is accepted: success ends the reap for good, failure makes it wait until the time
      it names. */
  lemma ReportDecides(reaps: map<Id, Reap>, c: Claim, succeeded: bool, now: Time, retryAt: Time, more: seq<Op>)
    ensures var step := CompleteReap(reaps, c, succeeded, now, retryAt);
            && (step.out.Ok? <==> Holds(reaps, c, now))
            && (step.out.Ok? && succeeded ==> c.key in After(step.after, more) && After(step.after, more)[c.key].state == Succeeded && After(step.after, more)[c.key].owner.None?)
            && (step.out.Ok? && !succeeded ==>
                  c.key in step.after && step.after[c.key].attempt == c.attempt && step.after[c.key].owner.None?
                  && forall at :: Claimable(step.after[c.key], at) <==> retryAt <= at)
  {
    var step := CompleteReap(reaps, c, succeeded, now, retryAt);
    if step.out.Ok? && succeeded { SucceededForever(step.after, more, c.key); }
  }

  /** A request is enqueued once, waiting from that instant; repeated it must name the same revision, and changes nothing. */
  lemma EnqueuedOnce(reaps: map<Id, Reap>, key: Id, revision: Id, now: Time, more: seq<Op>, revision': Id, now': Time)
    requires EnqueueReap(reaps, key, revision, now).out.Ok?
    ensures var step := EnqueueReap(reaps, key, revision, now);
            && key in step.after && (key !in reaps ==> forall at :: Claimable(step.after[key], at) <==> now <= at)
            && EnqueueReap(After(step.after, more), key, revision', now')
               == Step(After(step.after, more), if revision' == revision then Ok(()) else Err(Conflict))
  {
    RevisionStays(EnqueueReap(reaps, key, revision, now).after, more, key);
  }

  lemma {:induction false} RevisionStays(reaps: map<Id, Reap>, ops: seq<Op>, key: Id)
    requires key in reaps
    ensures key in After(reaps, ops) && After(reaps, ops)[key].revision == reaps[key].revision
  {
    hide Next;
    if ops != [] {
      RevisionStays(reaps, ops[..|ops| - 1], key);
      RevisionStep(After(reaps, ops[..|ops| - 1]), ops[|ops| - 1], key);
    }
  }

  lemma RevisionStep(reaps: map<Id, Reap>, op: Op, key: Id)
    requires key in reaps
    ensures key in Next(reaps, op) && Next(reaps, op)[key].revision == reaps[key].revision
  {
  }

  /** The reap claimed first is claimable, and no other that could be claimed has waited longer. */
  lemma OldestFirst(reaps: map<Id, Reap>, locked: set<Id>, now: Time, k: Id, other: Id)
    requires IsFirst(ClaimQueue(reaps, locked, now), k)
    requires other in reaps && other !in locked && Claimable(reaps[other], now)
    ensures k in reaps && k !in locked && Claimable(reaps[k], now)
    ensures reaps[k].nextAttempt <= reaps[other].nextAttempt
    ensures reaps[k].nextAttempt == reaps[other].nextAttempt ==> reaps[k].created <= reaps[other].created
    ensures reaps[k].nextAttempt == reaps[other].nextAttempt && reaps[k].created == reaps[other].created ==> k <= other
  {
    var queue := ClaimQueue(reaps, locked, now);
    assert other in queue && queue[other] == Place(reaps[other].nextAttempt, reaps[other].created, other);
  }

  ghost predicate Leased(r: Reap) { r.state == Claimed <==> r.expires.Some? }

  lemma {:induction false} AllLeased(ops: seq<Op>)
    ensures forall k <- After(map[], ops) :: Leased(After(map[], ops)[k])
  {
    if ops != [] { AllLeased(ops[..|ops| - 1]); }
  }

  /** In every run every reap can still succeed, whoever held it and however often it failed. */
  lemma CanSucceed(ops: seq<Op>, key: Id)
    requires key in After(map[], ops)
    ensures exists more :: var t := After(After(map[], ops), more); key in t && t[key].state == Succeeded
  {
    hide After;
    var reaps := After(map[], ops);
    AllLeased(ops);
    AfterNone(reaps);
    if reaps[key].state != Succeeded {
      var due := if reaps[key].state == Claimed then reaps[key].expires.value else reaps[key].nextAttempt;
      var claim := DoClaim(key, 0, 1, due);
      var finish := DoComplete(Claim(key, reaps[key].revision, reaps[key].attempt + 1, 0, due + 1), true, due, due);
      AfterTwo(reaps, claim, finish);
      assert After(reaps, [claim, finish])[key].state == Succeeded;
    }
  }

  lemma AfterNone(reaps: map<Id, Reap>)
    ensures After(reaps, []) == reaps
  {
  }

  lemma AfterTwo(reaps: map<Id, Reap>, a: Op, b: Op)
    ensures After(reaps, [a, b]) == Next(Next(reaps, a), b)
  {
    hide Next;
    assert [a, b][..1] == [a] && [a][..0] == [];
    assert After(reaps, [a][..0]) == reaps;
  }

  class Repository {
    var reaps: map<Id, Reap>

    constructor ()
      ensures reaps == map[]
    {
      reaps := map[];
    }

    method Enqueue(key: Id, revision: Id, now: Time) returns (r: Outcome<()>)
      modifies this
      ensures Step(reaps, r) == EnqueueReap(old(reaps), key, revision, now)
    {
      if key !in reaps {
        reaps := reaps[key := Reap(revision, Queued, 0, None, None, now, now)];
        return Ok(());
      }
      if reaps[key].revision != revision { return Err(Conflict); }
      return Ok(());
    }

    method ClaimFirst(locked: set<Id>, owner: Id, ttl: Time, now: Time) returns (r: Option<Claim>)
      requires ttl > 0
      modifies this
      ensures var queue := ClaimQueue(old(reaps), locked, now);
              if queue == map[] then r == None && reaps == old(reaps)
              else exists key :: IsFirst(queue, key) && r.Some? && Step(reaps, Ok(r.value)) == ClaimReap(old(reaps), key, owner, ttl, now)
    {
      var queue := ClaimQueue(reaps, locked, now);
      if queue == map[] { return None; }
      FirstExists(queue);
      var key :| key in queue && IsFirst(queue, key);
      var record := reaps[key];
      record := record.(state := Claimed);
      record := record.(attempt := record.attempt + 1);
      record := record.(owner := Some(owner), expires := Some(now + ttl));
      reaps := reaps[key := record];
      return Some(Claim(key, record.revision, record.attempt, owner, now + ttl));
    }

    method Complete(c: Claim, succeeded: bool, now: Time, retryAt: Time) returns (r: Outcome<()>)
      modifies this
      ensures Step(reaps, r) == CompleteReap(old(reaps), c, succeeded, now, retryAt)
    {
      if now >= c.expires || !Holds(reaps, c, now) { return Err(LeaseLost); }
      var record := reaps[c.key].(owner := None, expires := None);
      if succeeded {
        reaps := reaps[c.key := record.(state := Succeeded)];
      } else {
        reaps := reaps[c.key := record.(state := Queued, nextAttempt := retryAt)];
      }
      return Ok(());
    }
  }
}
