/** Resetting a virtual Kubernetes environment: its namespace is deleted in the background, so a
    reset waits until it is gone and only then rebuilds. */
module NamespaceReset {
  import opened Base

  /** `stamp` is the reset generation that made it, 0 for none. */
  datatype Namespace = Namespace(uid: nat, stamp: nat, terminating: bool, parts: set<Id>)

  /** The virtual cluster, of all that is put in a namespace the one thing deleted by itself. */
  const VCluster: Id := 0

  /** `late` are deletions sent, and given up on, that may still arrive: each names the uid it is for. */
  datatype World = World(current: Option<Namespace>, nextUid: nat, late: set<nat>)

  /** What a controller asks for: the things to put in the namespace, and its stamp (0 for a plain provision). */
  datatype Request = Request(parts: seq<Id>, stamp: nat)

  // ---- Between calls ----

  datatype Happening = Finalized | Arrives(uid: nat)

  function Mark(ns: Option<Namespace>, uid: nat): Option<Namespace> {
    if ns.Some? && ns.value.uid == uid then Some(ns.value.(terminating := true)) else ns
  }

  function Happens(w: World, h: Happening): World {
    match h
    case Finalized => if w.current.Some? && w.current.value.terminating then w.(current := None) else w
    case Arrives(uid) => if uid in w.late then w.(current := Mark(w.current, uid)) else w
  }

  function HappenAll(w: World, hs: seq<Happening>): World {
    if hs == [] then w else Happens(HappenAll(w, hs[..|hs| - 1]), hs[|hs| - 1])
  }

  /** What happens before a call, and how the call goes: it works, fails before it has an effect,
      loses its answer after it, or fails and, when it deletes a namespace, has its effect later. */
  datatype Fault = Works | Fails | LosesAnswer | ArrivesLate

  datatype Moment = Moment(before: seq<Happening>, fault: Fault)

  datatype Call = Look | DeleteCluster | DeleteNamespace(uid: nat) | CreateNamespace(stamp: nat) | Ensure(part: Id)
  {
    predicate Wipes() { DeleteCluster? || DeleteNamespace? }

    predicate Builds() { CreateNamespace? || Ensure? }
  }

  datatype Event = Event(call: Call, before: World)

  datatype Done = Done(world: World, ok: bool, moments: seq<Moment>, trace: seq<Event>)

  function Next(moments: seq<Moment>): Moment { if moments == [] then Moment([], Works) else moments[0] }

  function Rest(moments: seq<Moment>): seq<Moment> { if moments == [] then [] else moments[1..] }

  // ---- The cluster ----

  function Effect(w: World, call: Call): Option<World> {
    match call
    case Look => Some(w)
    case DeleteCluster => Some(if w.current.Some? then w.(current := Some(w.current.value.(parts := w.current.value.parts - {VCluster}))) else w)
    case DeleteNamespace(uid) =>
      if w.current.Some? && w.current.value.uid != uid then None else Some(w.(current := Mark(w.current, uid)))
    case CreateNamespace(stamp) =>
      if w.current.Some? then Some(w)
      else Some(w.(current := Some(Namespace(w.nextUid, stamp, false, {})), nextUid := w.nextUid + 1))
    case Ensure(part) =>
      if w.current.None? || w.current.value.terminating then None
      else Some(w.(current := Some(w.current.value.(parts := w.current.value.parts + {part}))))
  }

  function Send(d: Done, call: Call): Done
    requires d.ok
  {
    var m := Next(d.moments);
    var w := HappenAll(d.world, m.before);
    var effect := Effect(w, call);
    var after := if effect.None? || m.fault.Fails? then w
                 else if m.fault.ArrivesLate? then (if call.DeleteNamespace? then w.(late := w.late + {call.uid}) else w)
                 else effect.value;
    Done(after, effect.Some? && m.fault.Works?, Rest(d.moments), d.trace + [Event(call, w)])
  }

  // ---- The controller's side ----

  predicate Carries(w: World, stamp: nat) { stamp > 0 && w.current.Some? && w.current.value.stamp == stamp }

  datatype Verdict = Gone | Waiting | Failed

  /** Deleting: Gone when there is nothing to delete or what is there is this request's own rebuild. */
  function Delete(w: World, q: Request, moments: seq<Moment>): (Done, Verdict) {
    var looked := Send(Done(w, true, moments, []), Look);
    if !looked.ok then (looked, Failed)
    else if looked.world.current.None? || Carries(looked.world, q.stamp) then (looked, Gone)
    else
      var cluster := Send(looked, DeleteCluster);
      if !cluster.ok then (cluster, Failed)
      else
        var deleted := Send(cluster, DeleteNamespace(looked.world.current.value.uid));
        (deleted, if deleted.ok then Waiting else Failed)
  }

  function EnsureAll(d: Done, parts: seq<Id>): Done {
    if parts == [] || !d.ok then d
    else
      var before := EnsureAll(d, parts[..|parts| - 1]);
      if before.ok then Send(before, Ensure(parts[|parts| - 1])) else before
  }

  function EnsureNamespace(d: Done, q: Request): Done
    requires d.ok
  {
    var looked := Send(d, Look);
    if !looked.ok || looked.world.current.Some? then looked else Send(looked, CreateNamespace(q.stamp))
  }

  function Provision(d: Done, q: Request): Done
    requires d.ok
  {
    EnsureAll(EnsureNamespace(d, q), q.parts)
  }

  /** Rebuilds in the pass that finds nothing left to delete. */
  function Reset(w: World, q: Request, moments: seq<Moment>): Done {
    var (d, verdict) := Delete(w, q, moments);
    if verdict == Gone then Provision(d, q) else d
  }

  // ---- Invariant ----

  /** A namespace of the generation reached is not going away, and no late deletion is for it. */
  ghost predicate Inv(w: World, generation: nat) {
    && (forall u <- w.late :: u < w.nextUid)
    && (w.current.Some? ==>
          && w.current.value.uid < w.nextUid && w.current.value.stamp <= generation
          && (w.current.value.stamp == generation > 0 ==> !w.current.value.terminating && w.current.value.uid !in w.late))
  }

  /** The namespace is the same one, or gone. */
  ghost predicate SameOrGone(w: World, v: World) {
    v.current.Some? ==> w.current.Some? && v.current.value.uid == w.current.value.uid && v.current.value.stamp == w.current.value.stamp
  }

  /** A namespace of the generation reached stays, with all that is in it. */
  ghost predicate Stays(w: World, v: World, generation: nat) {
    Carries(w, generation) ==>
      && v.current.Some? && v.current.value.uid == w.current.value.uid && v.current.value.stamp == generation
      && w.current.value.parts <= v.current.value.parts
  }

  lemma {:induction false} HappeningsKeep(w: World, hs: seq<Happening>, generation: nat)
    requires Inv(w, generation)
    ensures var v := HappenAll(w, hs); Inv(v, generation) && SameOrGone(w, v) && Stays(w, v, generation)
  {
    if hs != [] { HappeningsKeep(w, hs[..|hs| - 1], generation); }
  }

  /** What a call may be sent for: wiping a namespace of an earlier generation, or building. */
  predicate Fit(w: World, call: Call, generation: nat) {
    match call
    case Look => true
    case DeleteCluster => !Carries(w, generation)
    case DeleteNamespace(uid) => uid < w.nextUid && !Carries(w, generation)
    case CreateNamespace(stamp) => stamp == generation || stamp == 0
    case Ensure(_) => true
  }

  lemma SendKeeps(d: Done, call: Call, generation: nat)
    requires d.ok && Inv(d.world, generation) && Fit(d.world, call, generation)
    ensures var e := Send(d, call);
            && Inv(e.world, generation) && Stays(d.world, e.world, generation)
            && e.trace[..|d.trace|] == d.trace && |e.trace| == |d.trace| + 1
            && SameOrGone(d.world, e.trace[|d.trace|].before) && e.trace[|d.trace|].call == call
            && (call.Wipes() || call.Look? ==> SameOrGone(d.world, e.world))
  {
    hide HappenAll;
    HappeningsKeep(d.world, Next(d.moments).before, generation);
    HappeningsKeepUids(d.world, Next(d.moments).before);
  }

  // ---- What a reset does, whatever happens ----

  /** A call is fenced: it does not wipe a namespace stamped n, and builds only in one, or where there is none. */
  ghost predicate Fenced(e: Event, n: nat) {
    && (e.call.Wipes() ==> !Carries(e.before, n))
    && (e.call.Builds() ==> e.before.current.None? || Carries(e.before, n))
  }

  ghost predicate AllFenced(trace: seq<Event>, n: nat) { forall e <- trace :: Fenced(e, n) }

  lemma FencedMore(d: Done, e: Done, n: nat)
    requires AllFenced(d.trace, n) && |e.trace| == |d.trace| + 1 && e.trace[..|d.trace|] == d.trace && Fenced(e.trace[|d.trace|], n)
    ensures AllFenced(e.trace, n)
  {
    forall x | x in e.trace ensures Fenced(x, n) {
      var k :| 0 <= k < |e.trace| && e.trace[k] == x;
      if k < |d.trace| { assert e.trace[..|d.trace|][k] == x; }
    }
  }

  lemma DeleteIsFenced(w: World, q: Request, moments: seq<Moment>)
    requires Inv(w, q.stamp) && q.stamp > 0
    ensures var (d, verdict) := Delete(w, q, moments);
            && Inv(d.world, q.stamp) && Stays(w, d.world, q.stamp) && AllFenced(d.trace, q.stamp)
            && (verdict == Gone ==> d.ok && (d.world.current.None? || Carries(d.world, q.stamp)))
            && (Carries(w, q.stamp) ==> forall e <- d.trace :: e.call == Look)
  {
    hide Send;
    var start := Done(w, true, moments, []);
    SendKeeps(start, Look, q.stamp);
    var looked := Send(start, Look);
    FencedMore(start, looked, q.stamp);
    if looked.ok && looked.world.current.Some? && !Carries(looked.world, q.stamp) {
      SendKeeps(looked, DeleteCluster, q.stamp);
      var cluster := Send(looked, DeleteCluster);
      FencedMore(looked, cluster, q.stamp);
      if cluster.ok {
        var uid := looked.world.current.value.uid;
        UidsStay(looked, DeleteCluster);
        SendKeeps(cluster, DeleteNamespace(uid), q.stamp);
        FencedMore(cluster, Send(cluster, DeleteNamespace(uid)), q.stamp);
      }
    }
  }

  lemma {:induction false} HappeningsKeepUids(w: World, hs: seq<Happening>)
    ensures HappenAll(w, hs).nextUid == w.nextUid
  {
    if hs != [] { HappeningsKeepUids(w, hs[..|hs| - 1]); }
  }

  lemma UidsStay(d: Done, call: Call)
    requires d.ok
    ensures Send(d, call).world.nextUid >= d.world.nextUid
  {
    hide HappenAll;
    HappeningsKeepUids(d.world, Next(d.moments).before);
  }

  lemma {:induction false} EnsuresAreFenced(d: Done, parts: seq<Id>, n: nat)
    requires d.ok && Inv(d.world, n) && Carries(d.world, n) && AllFenced(d.trace, n)
    ensures var e := EnsureAll(d, parts);
            Inv(e.world, n) && Stays(d.world, e.world, n) && Carries(e.world, n) && AllFenced(e.trace, n)
  {
    hide Send;
    if parts != [] {
      var before := EnsureAll(d, parts[..|parts| - 1]);
      EnsuresAreFenced(d, parts[..|parts| - 1], n);
      if before.ok {
        var part := Ensure(parts[|parts| - 1]);
        SendKeeps(before, part, n);
        StaysBefore(before, part, n);
        FencedMore(before, Send(before, part), n);
      }
    }
  }

  /** A namespace of this generation is there when the call arrives. */
  lemma StaysBefore(d: Done, call: Call, n: nat)
    requires d.ok && Inv(d.world, n) && Carries(d.world, n)
    ensures var e := Send(d, call); |e.trace| == |d.trace| + 1 && Carries(e.trace[|d.trace|].before, n)
  {
    hide HappenAll;
    HappeningsKeep(d.world, Next(d.moments).before, n);
  }

  lemma NamespaceIsFenced(d: Done, q: Request)
    requires d.ok && Inv(d.world, q.stamp) && q.stamp > 0 && AllFenced(d.trace, q.stamp)
    requires d.world.current.None? || Carries(d.world, q.stamp)
    ensures var e := EnsureNamespace(d, q);
            Inv(e.world, q.stamp) && Stays(d.world, e.world, q.stamp) && AllFenced(e.trace, q.stamp) && (e.ok ==> Carries(e.world, q.stamp))
  {
    hide Send;
    SendKeeps(d, Look, q.stamp);
    var looked := Send(d, Look);
    FencedMore(d, looked, q.stamp);
    if looked.ok && looked.world.current.None? {
      SendKeeps(looked, CreateNamespace(q.stamp), q.stamp);
      FencedMore(looked, Send(looked, CreateNamespace(q.stamp)), q.stamp);
      CreatedCarries(looked, q);
    }
  }

  lemma {:induction false} NothingAppears(w: World, hs: seq<Happening>)
    requires w.current.None?
    ensures HappenAll(w, hs).current.None?
  {
    if hs != [] { NothingAppears(w, hs[..|hs| - 1]); }
  }

  lemma CreatedCarries(d: Done, q: Request)
    requires d.ok && d.world.current.None? && q.stamp > 0
    ensures var e := Send(d, CreateNamespace(q.stamp)); e.ok ==> Carries(e.world, q.stamp)
  {
    NothingAppears(d.world, Next(d.moments).before);
  }

  /** A reset of generation n never wipes a namespace stamped n and builds nowhere else. */
  lemma ResetIsFenced(w: World, q: Request, moments: seq<Moment>)
    requires Inv(w, q.stamp) && q.stamp > 0
    ensures var d := Reset(w, q, moments);
            && Inv(d.world, q.stamp) && Stays(w, d.world, q.stamp) && AllFenced(d.trace, q.stamp)
            && (d.ok && Delete(w, q, moments).1 == Gone ==> Carries(d.world, q.stamp))
  {
    hide Delete, EnsureNamespace, EnsureAll;
    DeleteIsFenced(w, q, moments);
    var (d, verdict) := Delete(w, q, moments);
    if verdict == Gone {
      NamespaceIsFenced(d, q);
      var namespace := EnsureNamespace(d, q);
      if namespace.ok { EnsuresAreFenced(namespace, q.parts, q.stamp); } else { FailedStops(namespace, q.parts); }
    }
  }

  lemma FailedStops(d: Done, parts: seq<Id>)
    requires !d.ok
    ensures EnsureAll(d, parts) == d
  {
  }

  lemma {:induction false} ProvisionKeeps(d: Done, q: Request, generation: nat)
    requires d.ok && Inv(d.world, generation) && q.stamp == 0
    ensures Inv(Provision(d, q).world, generation) && Stays(d.world, Provision(d, q).world, generation)
  {
    hide Send;
    SendKeeps(d, Look, generation);
    var looked := Send(d, Look);
    if looked.ok && looked.world.current.None? { SendKeeps(looked, CreateNamespace(0), generation); }
    var namespace := EnsureNamespace(d, q);
    PartsKeep(namespace, q.parts, generation);
  }

  lemma {:induction false} PartsKeep(d: Done, parts: seq<Id>, generation: nat)
    requires Inv(d.world, generation)
    ensures Inv(EnsureAll(d, parts).world, generation) && Stays(d.world, EnsureAll(d, parts).world, generation)
  {
    hide Send;
    if parts != [] && d.ok {
      PartsKeep(d, parts[..|parts| - 1], generation);
      var before := EnsureAll(d, parts[..|parts| - 1]);
      if before.ok { SendKeeps(before, Ensure(parts[|parts| - 1]), generation); }
    }
  }

  // ---- What a deletion does ----

  lemma {:induction false} HappeningsAddNothing(w: World, hs: seq<Happening>)
    ensures var v := HappenAll(w, hs).current;
            v.Some? ==> w.current.Some? && v.value.uid == w.current.value.uid && v.value.parts == w.current.value.parts
                        && (w.current.value.terminating ==> v.value.terminating)
  {
    if hs != [] { HappeningsAddNothing(w, hs[..|hs| - 1]); }
  }

  /** A deletion looks first, deletes the virtual cluster, then the very namespace it saw; when it waits, the cluster is
      gone and so is the namespace, or it is going away. */
  lemma DeletionIsInOrder(w: World, q: Request, moments: seq<Moment>)
    requires Delete(w, q, moments).1 == Waiting
    ensures var trace := Delete(w, q, moments).0.trace;
            && |trace| == 3 && trace[0].call == Look && trace[0].before.current.Some?
            && trace[1].call == DeleteCluster && trace[2].call == DeleteNamespace(trace[0].before.current.value.uid)
    ensures var ns := Delete(w, q, moments).0.world.current; ns.Some? ==> ns.value.terminating && VCluster !in ns.value.parts
  {
    hide HappenAll;
    var looked := Send(Done(w, true, moments, []), Look);
    var cluster := Send(looked, DeleteCluster);
    HappeningsAddNothing(looked.world, Next(looked.moments).before);
    HappeningsAddNothing(cluster.world, Next(cluster.moments).before);
  }

  // ---- Runs ----

  datatype Op =
    | DoProvision(moments: seq<Moment>)
    | DoReset(n: nat, moments: seq<Moment>)
    | DoRelease(moments: seq<Moment>)
    | DoHappen(h: Happening)

  /** Once its release has begun an environment is neither provisioned nor reset again. */
  datatype Environment = Environment(world: World, generation: nat, released: bool)

  const Fresh := Environment(World(None, 0, {}), 0, false)

  /** A release deletes, and asks for no generation. */
  function Release(w: World, parts: seq<Id>, moments: seq<Moment>): (Done, Verdict) { Delete(w, Request(parts, 0), moments) }

  /** A reset is asked for a generation that is not behind. */
  function Step(parts: seq<Id>, e: Environment, op: Op): Environment {
    match op
    case DoProvision(moments) =>
      if e.released then e else e.(world := Provision(Done(e.world, true, moments, []), Request(parts, 0)).world)
    case DoReset(n, moments) =>
      if e.released || n == 0 || n < e.generation then e else Environment(Reset(e.world, Request(parts, n), moments).world, n, false)
    case DoRelease(moments) => Environment(Release(e.world, parts, moments).0.world, e.generation, true)
    case DoHappen(h) => e.(world := Happens(e.world, h))
  }

  function After(parts: seq<Id>, ops: seq<Op>): Environment {
    if ops == [] then Fresh else Step(parts, After(parts, ops[..|ops| - 1]), ops[|ops| - 1])
  }

  lemma StepKeeps(parts: seq<Id>, e: Environment, op: Op)
    requires Inv(e.world, e.generation) && !e.released && !op.DoRelease?
    ensures var t := Step(parts, e, op);
            !t.released && Inv(t.world, t.generation) && (t.generation == e.generation ==> Stays(e.world, t.world, e.generation))
  {
    hide Provision, Reset;
    match op {
      case DoProvision(moments) => ProvisionKeeps(Done(e.world, true, moments, []), Request(parts, 0), e.generation);
      case DoReset(n, moments) => if n >= e.generation && n > 0 { ResetIsFenced(e.world, Request(parts, n), moments); }
      case DoHappen(h) =>
        HappeningsKeep(e.world, [h], e.generation);
        assert [h][..0] == [] && HappenAll(e.world, [h][..0]) == e.world;
    }
  }

  lemma {:induction false} RunsKeep(parts: seq<Id>, ops: seq<Op>)
    ensures After(parts, ops).released || Inv(After(parts, ops).world, After(parts, ops).generation)
  {
    hide Step;
    if ops != [] {
      var e := After(parts, ops[..|ops| - 1]);
      RunsKeep(parts, ops[..|ops| - 1]);
      if e.released || ops[|ops| - 1].DoRelease? { ReleasedStays(parts, e, ops[|ops| - 1]); }
      if !e.released && !ops[|ops| - 1].DoRelease? { StepKeeps(parts, e, ops[|ops| - 1]); }
    }
  }

  lemma ReleasedStays(parts: seq<Id>, e: Environment, op: Op)
    requires e.released || op.DoRelease?
    ensures Step(parts, e, op).released
  {
  }

  // ---- Releasing ----

  /** A release that says it is done has left no namespace, whatever generation it was stamped with and whatever
      happened meanwhile; without faults it says so, or the namespace is going away and the next release says so. */
  lemma ReleaseLeavesNothing(parts: seq<Id>, ops: seq<Op>, moments: seq<Moment>)
    ensures var (d, verdict) := Release(After(parts, ops).world, parts, moments); verdict == Gone ==> d.world.current.None?
    ensures Release(After(parts, ops).world, parts, []).1 != Failed
    ensures var e := After(parts, ops + [DoRelease([]), DoHappen(Finalized)]);
            e.world.current.None? && Release(e.world, parts, []).1 == Gone
  {
    hide Reset, Provision, HappenAll;
    NothingHappens(After(parts, ops).world);
    var a, b := ops + [DoRelease([])], ops + [DoRelease([]), DoHappen(Finalized)];
    assert a[..|a| - 1] == ops && b[..|b| - 1] == a;
    NothingHappens(After(parts, b).world);
    ReleaseMarks(After(parts, ops).world, parts);
  }

  lemma NothingHappens(w: World)
    ensures HappenAll(w, []) == w
  {
  }

  lemma ReleaseMarks(w: World, parts: seq<Id>)
    ensures var (d, verdict) := Release(w, parts, []);
            verdict != Failed && Happens(d.world, Finalized).current.None?
  {
  }

  /** In every run, whatever happens between and during its calls, a reset of generation n sends no deletion to a
      namespace stamped n, and builds only in one or where there is none. */
  lemma EveryResetIsFenced(parts: seq<Id>, ops: seq<Op>, n: nat, moments: seq<Moment>, x: Event)
    requires !After(parts, ops).released && n > 0 && After(parts, ops).generation <= n && x in Reset(After(parts, ops).world, Request(parts, n), moments).trace
    ensures x.call.Wipes() ==> !Carries(x.before, n)
    ensures x.call.Builds() ==> x.before.current.None? || Carries(x.before, n)
  {
    hide Reset;
    RunsKeep(parts, ops);
    ResetIsFenced(After(parts, ops).world, Request(parts, n), moments);
    assert Fenced(x, n);
  }

  /** Once a namespace is stamped n it stays, with what is built in it, whatever is retried, provisioned or arrives late,
      until a later generation is asked for or the environment is released. */
  lemma {:induction false} ProgressIsKept(parts: seq<Id>, ops: seq<Op>, more: seq<Op>, n: nat)
    requires After(parts, ops).generation == n && Carries(After(parts, ops).world, n) && !After(parts, ops).released
    requires forall op <- more :: !op.DoRelease? && (op.DoReset? ==> op.n == n)
    ensures After(parts, ops + more).generation == n && !After(parts, ops + more).released && Stays(After(parts, ops).world, After(parts, ops + more).world, n)
  {
    hide Reset, Provision, Happens;
    if more == [] {
      assert ops + more == ops;
    } else {
      var init, op := more[..|more| - 1], more[|more| - 1];
      ProgressIsKept(parts, ops, init, n);
      assert (ops + more)[..|ops + more| - 1] == ops + init;
      RunsKeep(parts, ops + init);
      assert op in more;
      StepKeeps(parts, After(parts, ops + init), op);
    }
  }

  // ---- Convergence ----

  ghost predicate Rebuilt(w: World, q: Request) {
    Carries(w, q.stamp) && !w.current.value.terminating && forall p <- q.parts :: p in w.current.value.parts
  }

  lemma {:induction false} PartsCome(d: Done, parts: seq<Id>)
    requires d.ok && d.moments == [] && d.world.current.Some? && !d.world.current.value.terminating
    ensures var e := EnsureAll(d, parts);
            && e.ok && e.moments == [] && e.world.current.Some? && !e.world.current.value.terminating
            && e.world.current.value.stamp == d.world.current.value.stamp
            && forall p <- parts :: p in e.world.current.value.parts
  {
    if parts != [] {
      PartsCome(d, parts[..|parts| - 1]);
      assert forall p <- parts :: p in parts[..|parts| - 1] || p == parts[|parts| - 1];
    }
  }

  lemma CalmPass(w: World, q: Request)
    requires Inv(w, q.stamp) && q.stamp > 0
    ensures var d := Reset(w, q, []);
            d.ok && (w.current.None? || Carries(w, q.stamp) ==> Rebuilt(d.world, q))
            && (w.current.Some? && !Carries(w, q.stamp) ==> d.world.current.Some? && d.world.current.value.terminating)
  {
    hide EnsureAll;
    var (d, verdict) := Delete(w, q, []);
    if verdict == Gone { PartsCome(EnsureNamespace(d, q), q.parts); }
  }

  /** Whatever went wrong before: a pass without faults, the namespace gone, and another pass end with everything rebuilt. */
  lemma Converges(parts: seq<Id>, ops: seq<Op>, n: nat)
    requires !After(parts, ops).released && n > 0 && After(parts, ops).generation <= n
    ensures Rebuilt(After(parts, ops + [DoReset(n, []), DoHappen(Finalized), DoReset(n, [])]).world, Request(parts, n))
  {
    hide Reset, Rebuilt;
    var a, b, c := ops + [DoReset(n, [])], ops + [DoReset(n, []), DoHappen(Finalized)], ops + [DoReset(n, []), DoHappen(Finalized), DoReset(n, [])];
    assert a[..|a| - 1] == ops && b[..|b| - 1] == a && c[..|c| - 1] == b;
    RunsKeep(parts, ops);
    RunsKeep(parts, a);
    RunsKeep(parts, b);
    var w := After(parts, ops).world;
    CalmPass(w, Request(parts, n));
    if w.current.None? || Carries(w, n) { RebuiltStays(After(parts, a).world, Request(parts, n)); }
    CalmPass(After(parts, b).world, Request(parts, n));
  }

  lemma {:induction false} EnsuredIsThere(d: Done, parts: seq<Id>, n: nat)
    requires d.ok && Inv(d.world, n) && Carries(d.world, n) && AllFenced(d.trace, n) && EnsureAll(d, parts).ok
    ensures Carries(EnsureAll(d, parts).world, n) && forall p <- parts :: p in EnsureAll(d, parts).world.current.value.parts
  {
    hide Send, Inv, AllFenced;
    if parts != [] {
      var init, last := parts[..|parts| - 1], parts[|parts| - 1];
      var before := EnsureAll(d, init);
      EnsuredIsThere(d, init, n);
      EnsuresAreFenced(d, init, n);
      SendKeeps(before, Ensure(last), n);
      SentIsThere(before, last);
      assert forall p <- parts :: p in init || p == last;
    }
  }

  lemma SentIsThere(d: Done, part: Id)
    requires d.ok && Send(d, Ensure(part)).ok
    ensures var w := Send(d, Ensure(part)).world; w.current.Some? && part in w.current.value.parts
  {
    hide HappenAll;
  }

  /** In every run a reset that says it is done, and does not wait, has rebuilt everything, whatever happened meanwhile. */
  lemma ResetIsWhatItSays(parts: seq<Id>, ops: seq<Op>, n: nat, moments: seq<Moment>)
    requires !After(parts, ops).released && n > 0 && After(parts, ops).generation <= n
    requires var w, q := After(parts, ops).world, Request(parts, n); Delete(w, q, moments).1 == Gone && Reset(w, q, moments).ok
    ensures Rebuilt(Reset(After(parts, ops).world, Request(parts, n), moments).world, Request(parts, n))
  {
    hide Delete, EnsureNamespace, EnsureAll;
    RunsKeep(parts, ops);
    var w, q := After(parts, ops).world, Request(parts, n);
    assert Inv(w, n);
    ResetIsFenced(w, q, moments);
    DeleteIsFenced(w, q, moments);
    var d := Delete(w, q, moments).0;
    NamespaceIsFenced(d, q);
    var namespace := EnsureNamespace(d, q);
    if namespace.ok { EnsuredIsThere(namespace, parts, n); } else { FailedStops(namespace, parts); }
  }

  lemma RebuiltStays(w: World, q: Request)
    requires Rebuilt(w, q)
    ensures Happens(w, Finalized) == w && Carries(w, q.stamp)
  {
  }

  // ---- The provider ----

  /** The provider client; `moments` is what happens, and what goes wrong, call by call. */
  class Provider {
    var world: World
    var moments: seq<Moment>
    ghost var trace: seq<Event>

    ghost function Now(ok: bool): Done
      reads this
    {
      Done(world, ok, moments, trace)
    }

    method Ask(call: Call) returns (ok: bool)
      modifies this
      ensures Now(ok) == Send(old(Now(true)), call)
    {
      var m := Next(moments);
      moments := Rest(moments);
      var w := HappenAll(world, m.before);
      trace := trace + [Event(call, w)];
      var effect := Effect(w, call);
      world := w;
      if effect.Some? {
        if m.fault.Works? || m.fault.LosesAnswer? {
          world := effect.value;
        } else if m.fault.ArrivesLate? && call.DeleteNamespace? {
          world := w.(late := w.late + {call.uid});
        }
      }
      return effect.Some? && m.fault.Works?;
    }

    method DeleteEnvironment(q: Request) returns (verdict: Verdict, ok: bool)
      modifies this
      ensures (Now(ok), verdict) == Delete(old(world), q, old(moments))
    {
      hide Send;
      trace := [];
      ok := Ask(Look);
      if !ok { return Failed, false; }
      if world.current.None? { return Gone, true; }
      var namespace := world.current.value;
      if q.stamp > 0 && namespace.stamp == q.stamp { return Gone, true; }
      ok := Ask(DeleteCluster);
      if !ok { return Failed, false; }
      ok := Ask(DeleteNamespace(namespace.uid));
      if !ok { return Failed, false; }
      return Waiting, true;
    }

    method ProvisionEnvironment(q: Request) returns (ok: bool)
      modifies this
      ensures Now(ok) == Provision(old(Now(true)), q)
    {
      hide Send;
      ghost var namespace := EnsureNamespace(Now(true), q);
      ok := Ask(Look);
      if ok && world.current.None? { ok := Ask(CreateNamespace(q.stamp)); }
      var i := 0;
      while i < |q.parts| && ok
        invariant 0 <= i <= |q.parts|
        invariant Now(ok) == EnsureAll(namespace, q.parts[..i])
      {
        assert q.parts[..i + 1][..i] == q.parts[..i];
        ok := Ask(Ensure(q.parts[i]));
        i := i + 1;
      }
      if !ok { StoppedStays(namespace, q.parts, i); }
      assert i == |q.parts| ==> q.parts[..i] == q.parts;
    }

    /** Waits while a namespace of an earlier generation goes away; rebuilds when it is gone. */
    method ResetEnvironment(q: Request) returns (ok: bool)
      modifies this
      ensures Now(ok) == Reset(old(world), q, old(moments))
    {
      hide Delete, Provision;
      DeleteVerdict(world, q, moments);
      var verdict;
      verdict, ok := DeleteEnvironment(q);
      if verdict == Gone { ok := ProvisionEnvironment(q); }
    }
  }

  lemma DeleteVerdict(w: World, q: Request, moments: seq<Moment>)
    ensures Delete(w, q, moments).1 == Gone ==> Delete(w, q, moments).0.ok
  {
  }

  lemma {:induction false} StoppedStays(d: Done, parts: seq<Id>, n: nat)
    requires n <= |parts| && !EnsureAll(d, parts[..n]).ok
    ensures EnsureAll(d, parts) == EnsureAll(d, parts[..n])
  {
    hide Send;
    if n == |parts| {
      assert parts[..n] == parts;
    } else {
      assert parts[..|parts| - 1][..n] == parts[..n];
      StoppedStays(d, parts[..|parts| - 1], n);
    }
  }
}
