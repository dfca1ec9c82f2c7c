/** Resetting a node environment: wipe it, then rebuild it, over provider calls any of which may fail. */
module NodeReset {
  import opened Base

  datatype Resource = ACL | Network | Project | Image | Profile | Instance(node: Id)
  {
    predicate Inside() { Image? || Profile? || Instance? }
  }

  /** `stamp` is the project's reset generation, 0 for none. `made` is history: the generation
      the controller was at when the resource was created. */
  datatype Row = Row(stamp: nat, made: nat, running: bool)

  type World = map<Resource, Row>

  /** What a controller asks for: its nodes, the stamp of its request (0 for a plain provision),
      and, as history, the generation it is at. */
  datatype Request = Request(nodes: seq<Id>, stamp: nat, generation: nat)

  datatype Call =
    | Ensure(r: Resource)
    | Remove(r: Resource)
    | Start(node: Id)
    | Stop(node: Id)
    | AwaitRunning(node: Id)
    | AwaitStopped(node: Id)
    | AwaitGone(node: Id)
  {
    /** Answered when the operation is accepted; it is waited for later. */
    predicate Background() { Start? || Stop? || (Remove? && r.Instance?) }

    predicate Wipes() { Remove? || Stop? || AwaitStopped? || AwaitGone? }
  }

  // ---- The provider ----

  predicate CanCreate(w: World, r: Resource) {
    && (r.Inside() ==> Project in w)
    && (r.Network? ==> ACL in w)
    && (r.Instance? ==> Network in w && Image in w && Profile in w)
  }

  predicate InUse(w: World, r: Resource) {
    match r
    case ACL => Network in w
    case Network => exists k <- w :: k.Instance?
    case Project => exists k <- w :: k.Inside()
    case Image => false
    case Profile => exists k <- w :: k.Instance?
    case Instance(_) => r in w && w[r].running
  }

  /** The effect of a call; None when the provider refuses it. Each call looks first: what is there
      already is not created, what is not there is not deleted. */
  function Effect(w: World, q: Request, call: Call): Option<World> {
    match call
    case Ensure(r) =>
      if r in w then Some(w)
      else if !CanCreate(w, r) then None
      else Some(w[r := Row(if r == Project then q.stamp else 0, q.generation, false)])
    case Remove(r) => if r !in w then Some(w) else if InUse(w, r) then None else Some(w - {r})
    case Start(i) => if Instance(i) in w then Some(w[Instance(i) := w[Instance(i)].(running := true)]) else None
    case Stop(i) => if Instance(i) in w then Some(w[Instance(i) := w[Instance(i)].(running := false)]) else Some(w)
    case AwaitRunning(i) => if Instance(i) in w && w[Instance(i)].running then Some(w) else None
    case AwaitStopped(i) => if Instance(i) in w && w[Instance(i)].running then None else Some(w)
    case AwaitGone(i) => if Instance(i) in w then None else Some(w)
  }

  /** A call works, fails before it has an effect, loses its answer after it, or is accepted and comes to nothing. */
  datatype Fault = Works | Fails | LosesAnswer | ComesToNothing

  datatype Answer = Answer(world: World, ok: bool)

  function Ask(w: World, q: Request, call: Call, fault: Fault): Answer {
    var effect := Effect(w, q, call);
    match fault
    case Works => if effect.Some? then Answer(effect.value, true) else Answer(w, false)
    case Fails => Answer(w, false)
    case LosesAnswer => Answer(if effect.Some? then effect.value else w, false)
    case ComesToNothing => Answer(w, call.Background())
  }

  /** A call, and the world it was made in. */
  datatype Event = Event(call: Call, before: World)

  /** How a list of calls went: it ends at the first failure. Faults not foreseen do not happen. */
  datatype Done = Done(world: World, ok: bool, faults: seq<Fault>, trace: seq<Event>)

  function Next(faults: seq<Fault>): Fault { if faults == [] then Works else faults[0] }

  function Rest(faults: seq<Fault>): seq<Fault> { if faults == [] then [] else faults[1..] }

  function Execute(d: Done, q: Request, calls: seq<Call>): Done {
    if calls == [] || !d.ok then d
    else
      var before := Execute(d, q, calls[..|calls| - 1]);
      if !before.ok then before
      else
        var call := calls[|calls| - 1];
        var answer := Ask(before.world, q, call, Next(before.faults));
        Done(answer.world, answer.ok, Rest(before.faults), before.trace + [Event(call, before.world)])
  }

  // ---- The controller's side ----

  predicate Carries(w: World, stamp: nat) { stamp > 0 && Project in w && w[Project].stamp == stamp }

  function EachStop(nodes: seq<Id>): seq<Call> { seq(|nodes|, i requires 0 <= i < |nodes| => Stop(nodes[i])) }

  function EachStopped(nodes: seq<Id>): seq<Call> { seq(|nodes|, i requires 0 <= i < |nodes| => AwaitStopped(nodes[i])) }

  function EachRemove(nodes: seq<Id>): seq<Call> { seq(|nodes|, i requires 0 <= i < |nodes| => Remove(Instance(nodes[i]))) }

  function EachGone(nodes: seq<Id>): seq<Call> { seq(|nodes|, i requires 0 <= i < |nodes| => AwaitGone(nodes[i])) }

  function EachBuild(nodes: seq<Id>): seq<Call> {
    if nodes == [] then [] else EachBuild(nodes[..|nodes| - 1]) + [Ensure(Instance(nodes[|nodes| - 1])), Start(nodes[|nodes| - 1])]
  }

  function EachRunning(nodes: seq<Id>): seq<Call> { seq(|nodes|, i requires 0 <= i < |nodes| => AwaitRunning(nodes[i])) }

  function InsideCalls(nodes: seq<Id>): seq<Call> {
    EachStop(nodes) + EachStopped(nodes) + EachRemove(nodes) + EachGone(nodes) + [Remove(Image), Remove(Profile), Remove(Project)]
  }

  function WipeCalls(nodes: seq<Id>, project: bool): seq<Call> {
    (if project then InsideCalls(nodes) else []) + [Remove(Network), Remove(ACL)]
  }

  function BuildCalls(nodes: seq<Id>): seq<Call> {
    [Ensure(ACL), Ensure(Network), Ensure(Project), Ensure(Image), Ensure(Profile)] + EachBuild(nodes) + EachRunning(nodes)
  }

  /** Deleting: nothing when the project is this request's own rebuild. */
  function Wipe(w: World, q: Request, faults: seq<Fault>): Done {
    if Next(faults) != Works then Done(w, false, Rest(faults), [])
    else if Carries(w, q.stamp) then Done(w, true, Rest(faults), [])
    else Execute(Done(w, true, Rest(faults), []), q, WipeCalls(q.nodes, Project in w))
  }

  function Provision(w: World, q: Request, faults: seq<Fault>): Done {
    Execute(Done(w, true, faults, []), q, BuildCalls(q.nodes))
  }

  function Reset(w: World, q: Request, faults: seq<Fault>): Done {
    Execute(Wipe(w, q, faults), q, BuildCalls(q.nodes))
  }

  // ---- Lists of calls ----

  lemma {:induction false} ExecuteMore(d: Done, q: Request, a: seq<Call>, b: seq<Call>)
    ensures Execute(d, q, a + b) == Execute(Execute(d, q, a), q, b)
  {
    if b == [] {
      assert a + b == a;
    } else {
      ExecuteMore(d, q, a, b[..|b| - 1]);
      assert (a + b)[..|a + b| - 1] == a + b[..|b| - 1];
    }
  }

  lemma ExecuteOne(d: Done, q: Request, call: Call)
    requires d.ok
    ensures var answer := Ask(d.world, q, call, Next(d.faults));
            Execute(d, q, [call]) == Done(answer.world, answer.ok, Rest(d.faults), d.trace + [Event(call, d.world)])
  {
    assert [call][..0] == [];
    assert Execute(d, q, [call][..0]) == d;
  }

  /** Nothing is changed but what is there is kept: rows stay as they were made. */
  ghost predicate Grows(w: World, v: World) {
    forall r <- w :: r in v && v[r].stamp == w[r].stamp && v[r].made == w[r].made && (w[r].running ==> v[r].running)
  }

  /** Nothing is added, and what is left is as it was made. */
  ghost predicate Shrinks(w: World, v: World) {
    forall r <- v :: r in w && v[r].stamp == w[r].stamp && v[r].made == w[r].made
  }

  /** What is inside a project is there only with it. */
  ghost predicate Nested(w: World) { forall r <- w :: r.Inside() ==> Project in w }

  ghost predicate KnownNodes(w: World, nodes: seq<Id>) { forall r <- w :: r.Instance? ==> r.node in nodes }

  /** A stamped project holds nothing older than its stamp; nothing is newer than the generation reached. */
  ghost predicate Stamped(w: World, generation: nat) {
    && (forall r <- w :: w[r].made <= generation)
    && (Project in w ==> w[Project].stamp <= generation && forall r <- w :: w[r].made >= w[Project].stamp)
  }

  ghost predicate Inv(w: World, nodes: seq<Id>, generation: nat) { Nested(w) && KnownNodes(w, nodes) && Stamped(w, generation) }

  ghost predicate AllMade(w: World, generation: nat) { forall r <- w :: w[r].made == generation }

  lemma AskKeeps(w: World, q: Request, call: Call, fault: Fault)
    requires Nested(w) && KnownNodes(w, q.nodes)
    requires call.Ensure? && call.r.Instance? ==> call.r.node in q.nodes
    ensures var v := Ask(w, q, call, fault).world; Nested(v) && KnownNodes(v, q.nodes)
    ensures call.Wipes() ==> Shrinks(w, Ask(w, q, call, fault).world)
    ensures !call.Wipes() ==> Grows(w, Ask(w, q, call, fault).world)
    ensures AllMade(w, q.generation) ==> AllMade(Ask(w, q, call, fault).world, q.generation)
  {
  }

  /** Calls that wipe leave less and less; each is made in a world that holds no more than the first. */
  lemma {:induction false} WipingShrinks(d: Done, q: Request, calls: seq<Call>)
    requires d.ok && Nested(d.world) && KnownNodes(d.world, q.nodes) && forall c <- calls :: c.Wipes()
    ensures var e := Execute(d, q, calls);
            && Nested(e.world) && KnownNodes(e.world, q.nodes) && Shrinks(d.world, e.world)
            && d.trace <= e.trace
            && forall k | |d.trace| <= k < |e.trace| :: e.trace[k].call.Wipes() && Shrinks(d.world, e.trace[k].before)
  {
    if calls != [] {
      var init, last := calls[..|calls| - 1], calls[|calls| - 1];
      assert last in calls;
      WipingShrinks(d, q, init);
      var before := Execute(d, q, init);
      if before.ok { AskKeeps(before.world, q, last, Next(before.faults)); }
    }
  }

  predicate Builds(q: Request, calls: seq<Call>) {
    forall c <- calls :: !c.Wipes() && (c.Ensure? && c.r.Instance? ==> c.r.node in q.nodes)
  }

  /** Calls that build add to what is there, and each is made where everything is of one generation if the first is. */
  lemma {:induction false} BuildingGrows(d: Done, q: Request, calls: seq<Call>)
    requires d.ok && Nested(d.world) && KnownNodes(d.world, q.nodes) && Builds(q, calls)
    ensures var e := Execute(d, q, calls);
            && Nested(e.world) && KnownNodes(e.world, q.nodes) && Grows(d.world, e.world)
            && (AllMade(d.world, q.generation) ==> AllMade(e.world, q.generation))
            && d.trace <= e.trace
            && (forall k | |d.trace| <= k < |e.trace| :: !e.trace[k].call.Wipes())
            && (AllMade(d.world, q.generation) ==> forall k | |d.trace| <= k < |e.trace| :: AllMade(e.trace[k].before, q.generation))
  {
    hide AllMade;
    if calls != [] {
      var init := calls[..|calls| - 1];
      BuildingGrows(d, q, init);
      var before := Execute(d, q, init);
      if before.ok { AskKeeps(before.world, q, calls[|calls| - 1], Next(before.faults)); }
    }
  }

  lemma {:induction false} EachBuildBuilds(q: Request, nodes: seq<Id>)
    requires forall i <- nodes :: i in q.nodes
    ensures Builds(q, EachBuild(nodes))
  {
    if nodes != [] { EachBuildBuilds(q, nodes[..|nodes| - 1]); }
  }

  lemma BuildCallsBuild(q: Request)
    ensures Builds(q, BuildCalls(q.nodes))
  {
    EachBuildBuilds(q, q.nodes);
  }

  lemma WipeCallsWipe(nodes: seq<Id>, project: bool)
    ensures forall c <- WipeCalls(nodes, project) :: c.Wipes()
  {
  }

  // ---- A completed wipe leaves nothing ----

  lemma RemovedIsGone(d: Done, q: Request, r: Resource)
    requires !r.Instance? && Execute(d, q, [Remove(r)]).ok
    ensures d.ok && r !in Execute(d, q, [Remove(r)]).world
  {
    if d.ok { ExecuteOne(d, q, Remove(r)); }
  }

  function UpToProject(nodes: seq<Id>): seq<Call> {
    EachStop(nodes) + EachStopped(nodes) + EachRemove(nodes) + EachGone(nodes) + [Remove(Image), Remove(Profile)]
  }

  /** Nothing is left of the project once its deletion has been answered. */
  lemma InsideGone(d: Done, q: Request)
    requires d.ok && Nested(d.world) && KnownNodes(d.world, q.nodes)
    ensures var e := Execute(d, q, InsideCalls(q.nodes));
            Nested(e.world) && KnownNodes(e.world, q.nodes) && Shrinks(d.world, e.world) && (e.ok ==> Project !in e.world)
  {
    assert InsideCalls(q.nodes) == UpToProject(q.nodes) + [Remove(Project)];
    ExecuteMore(d, q, UpToProject(q.nodes), [Remove(Project)]);
    WipingShrinks(d, q, InsideCalls(q.nodes));
    if Execute(d, q, InsideCalls(q.nodes)).ok { RemovedIsGone(Execute(d, q, UpToProject(q.nodes)), q, Project); }
  }

  lemma OutsideGone(d: Done, q: Request)
    requires d.ok && Nested(d.world) && KnownNodes(d.world, q.nodes) && Project !in d.world
    ensures var e := Execute(d, q, [Remove(Network), Remove(ACL)]); e.ok ==> e.world == map[]
  {
    var calls := [Remove(Network), Remove(ACL)];
    assert calls == [Remove(Network)] + [Remove(ACL)];
    ExecuteMore(d, q, [Remove(Network)], [Remove(ACL)]);
    var middle, e := Execute(d, q, [Remove(Network)]), Execute(d, q, calls);
    if e.ok {
      RemovedIsGone(middle, q, ACL);
      RemovedIsGone(d, q, Network);
      WipingShrinks(d, q, [Remove(Network)]);
      WipingShrinks(middle, q, [Remove(ACL)]);
      forall r ensures r !in e.world { }
    }
  }

  /** A wipe that went through, and was not spared, leaves nothing at all. */
  lemma WipedIsEmpty(w: World, q: Request, faults: seq<Fault>)
    requires Nested(w) && KnownNodes(w, q.nodes) && Wipe(w, q, faults).ok && !Carries(w, q.stamp)
    ensures Wipe(w, q, faults).world == map[]
  {
    var d := Done(w, true, Rest(faults), []);
    var inside := if Project in w then InsideCalls(q.nodes) else [];
    ExecuteMore(d, q, inside, [Remove(Network), Remove(ACL)]);
    InsideGone(d, q);
    OutsideGone(Execute(d, q, inside), q);
  }

  lemma WipeShrinks(w: World, q: Request, faults: seq<Fault>)
    requires Nested(w) && KnownNodes(w, q.nodes)
    ensures var d := Wipe(w, q, faults);
            && Nested(d.world) && KnownNodes(d.world, q.nodes) && Shrinks(w, d.world)
            && (Carries(w, q.stamp) ==> d.world == w && d.trace == [])
            && forall e <- d.trace :: e.call.Wipes() && Shrinks(w, e.before)
  {
    WipeCallsWipe(q.nodes, Project in w);
    WipingShrinks(Done(w, true, Rest(faults), []), q, WipeCalls(q.nodes, Project in w));
  }

  // ---- What a reset does, whatever fails ----

  /** A reset of generation n: never wipes a project stamped n, and rebuilds only where nothing of another generation is left. */
  lemma ResetIsFenced(w: World, q: Request, faults: seq<Fault>)
    requires Inv(w, q.nodes, q.generation) && q.stamp == q.generation > 0
    ensures var d := Reset(w, q, faults);
            && Inv(d.world, q.nodes, q.generation)
            && (Carries(w, q.stamp) ==> Grows(w, d.world))
            && forall e <- d.trace ::
                 (e.call.Wipes() ==> !Carries(e.before, q.stamp)) && (!e.call.Wipes() ==> AllMade(e.before, q.generation))
  {
    hide Execute;
    WipeShrinks(w, q, faults);
    var wiped, d := Wipe(w, q, faults), Reset(w, q, faults);
    if wiped.ok {
      if !Carries(w, q.stamp) { WipedIsEmpty(w, q, faults); }
      assert AllMade(wiped.world, q.generation);
      BuildCallsBuild(q);
      BuildingGrows(wiped, q, BuildCalls(q.nodes));
      StampIsKept(wiped, q, BuildCalls(q.nodes));
      forall e | e in d.trace ensures (e.call.Wipes() ==> !Carries(e.before, q.stamp)) && (!e.call.Wipes() ==> AllMade(e.before, q.generation)) {
        var k :| 0 <= k < |d.trace| && d.trace[k] == e;
        if k < |wiped.trace| { assert e == wiped.trace[k]; }
      }
    } else {
      FailedStops(wiped, q, BuildCalls(q.nodes));
    }
  }

  lemma FailedStops(d: Done, q: Request, calls: seq<Call>)
    requires !d.ok
    ensures Execute(d, q, calls) == d
  {
  }

  /** A project made here carries the request's stamp. */
  lemma {:induction false} StampIsKept(d: Done, q: Request, calls: seq<Call>)
    requires d.ok && Nested(d.world) && KnownNodes(d.world, q.nodes) && Builds(q, calls) && (Project in d.world ==> d.world[Project].stamp == q.stamp)
    ensures var e := Execute(d, q, calls); Project in e.world ==> e.world[Project].stamp == q.stamp
  {
    if calls != [] {
      StampIsKept(d, q, calls[..|calls| - 1]);
      BuildingGrows(d, q, calls[..|calls| - 1]);
    }
  }

  // ---- Convergence ----

  predicate Calm(d: Done) { d.ok && d.faults == [] }

  ghost predicate NoneRunning(w: World, nodes: seq<Id>) { forall i <- nodes :: Instance(i) in w ==> !w[Instance(i)].running }

  lemma {:induction false} StopsAll(d: Done, q: Request, nodes: seq<Id>)
    requires Calm(d)
    ensures var e := Execute(d, q, EachStop(nodes));
            Calm(e) && e.world.Keys == d.world.Keys && NoneRunning(e.world, nodes)
  {
    if nodes != [] {
      var init := nodes[..|nodes| - 1];
      StopsAll(d, q, init);
      assert EachStop(nodes)[..|nodes| - 1] == EachStop(init);
      assert forall i <- nodes :: i in init || i == nodes[|nodes| - 1];
    }
  }

  lemma {:induction false} StoppedAlready(d: Done, q: Request, nodes: seq<Id>)
    requires Calm(d) && NoneRunning(d.world, nodes)
    ensures var e := Execute(d, q, EachStopped(nodes)); Calm(e) && e.world == d.world
  {
    if nodes != [] {
      var init := nodes[..|nodes| - 1];
      StoppedAlready(d, q, init);
      assert EachStopped(nodes)[..|nodes| - 1] == EachStopped(init);
    }
  }

  lemma {:induction false} RemovesAll(d: Done, q: Request, nodes: seq<Id>)
    requires Calm(d) && NoneRunning(d.world, nodes)
    ensures var e := Execute(d, q, EachRemove(nodes));
            && Calm(e) && (forall r <- e.world :: r in d.world && e.world[r] == d.world[r])
            && forall i <- nodes :: Instance(i) !in e.world
  {
    if nodes != [] {
      var init := nodes[..|nodes| - 1];
      RemovesAll(d, q, init);
      assert EachRemove(nodes)[..|nodes| - 1] == EachRemove(init);
      assert forall i <- nodes :: i in init || i == nodes[|nodes| - 1];
    }
  }

  lemma {:induction false} GoneAlready(d: Done, q: Request, nodes: seq<Id>)
    requires Calm(d) && forall i <- nodes :: Instance(i) !in d.world
    ensures var e := Execute(d, q, EachGone(nodes)); Calm(e) && e.world == d.world
  {
    if nodes != [] {
      var init := nodes[..|nodes| - 1];
      GoneAlready(d, q, init);
      assert EachGone(nodes)[..|nodes| - 1] == EachGone(init);
    }
  }

  /** Stopped before they are deleted, and deleted before what they use: no deletion is refused. */
  lemma NodesGo(d: Done, q: Request)
    requires Calm(d)
    ensures var e := Execute(d, q, EachStop(q.nodes) + EachStopped(q.nodes) + EachRemove(q.nodes) + EachGone(q.nodes));
            Calm(e) && e.world.Keys <= d.world.Keys && forall i <- q.nodes :: Instance(i) !in e.world
  {
    hide Execute;
    var a, b, c, g := EachStop(q.nodes), EachStopped(q.nodes), EachRemove(q.nodes), EachGone(q.nodes);
    ExecuteMore(d, q, a + b + c, g);
    ExecuteMore(d, q, a + b, c);
    ExecuteMore(d, q, a, b);
    StopsAll(d, q, q.nodes);
    StoppedAlready(Execute(d, q, a), q, q.nodes);
    RemovesAll(Execute(d, q, a + b), q, q.nodes);
    GoneAlready(Execute(d, q, a + b + c), q, q.nodes);
  }

  lemma RemoveWorks(d: Done, q: Request, r: Resource)
    requires Calm(d) && !InUse(d.world, r)
    ensures var e := Execute(d, q, [Remove(r)]); Calm(e) && e.world == d.world - {r}
  {
    ExecuteOne(d, q, Remove(r));
    assert r !in d.world ==> d.world - {r} == d.world;
  }

  /** Without faults everything of a project, and then the project, is deleted. */
  lemma ProjectGoes(d: Done, q: Request)
    requires Calm(d) && KnownNodes(d.world, q.nodes)
    ensures var e := Execute(d, q, InsideCalls(q.nodes)); Calm(e) && e.world.Keys <= {Network, ACL}
  {
    hide Execute;
    var nodes := EachStop(q.nodes) + EachStopped(q.nodes) + EachRemove(q.nodes) + EachGone(q.nodes);
    assert InsideCalls(q.nodes) == nodes + [Remove(Image)] + [Remove(Profile)] + [Remove(Project)];
    ExecuteMore(d, q, nodes + [Remove(Image)] + [Remove(Profile)], [Remove(Project)]);
    ExecuteMore(d, q, nodes + [Remove(Image)], [Remove(Profile)]);
    ExecuteMore(d, q, nodes, [Remove(Image)]);
    NodesGo(d, q);
    var e := Execute(d, q, nodes);
    assert forall r <- e.world :: !r.Instance?;
    RemoveWorks(e, q, Image);
    RemoveWorks(Execute(d, q, nodes + [Remove(Image)]), q, Profile);
    RemoveWorks(Execute(d, q, nodes + [Remove(Image)] + [Remove(Profile)]), q, Project);
  }

  lemma WipeCompletes(w: World, q: Request)
    requires Nested(w) && KnownNodes(w, q.nodes)
    ensures Calm(Wipe(w, q, [])) && (!Carries(w, q.stamp) ==> Wipe(w, q, []).world == map[])
  {
    hide Execute;
    var d := Done(w, true, [], []);
    var inside := if Project in w then InsideCalls(q.nodes) else [];
    var all := WipeCalls(q.nodes, Project in w);
    assert all == inside + [Remove(Network)] + [Remove(ACL)];
    ExecuteMore(d, q, inside + [Remove(Network)], [Remove(ACL)]);
    ExecuteMore(d, q, inside, [Remove(Network)]);
    NothingToDo(d, q);
    if Project in w { ProjectGoes(d, q); }
    RemoveWorks(Execute(d, q, inside), q, Network);
    RemoveWorks(Execute(d, q, inside + [Remove(Network)]), q, ACL);
    if !Carries(w, q.stamp) { WipedIsEmpty(w, q, []); }
  }

  lemma NothingToDo(d: Done, q: Request)
    ensures Execute(d, q, []) == d
  {
  }

  lemma EnsureWorks(d: Done, q: Request, r: Resource)
    requires Calm(d) && (r in d.world || CanCreate(d.world, r))
    ensures var e := Execute(d, q, [Ensure(r)]); Calm(e) && e.world.Keys == d.world.Keys + {r}
  {
    ExecuteOne(d, q, Ensure(r));
  }

  const Shared: set<Resource> := {ACL, Network, Project, Image, Profile}

  lemma SharedComes(d: Done, q: Request)
    requires Calm(d)
    ensures var e := Execute(d, q, [Ensure(ACL), Ensure(Network), Ensure(Project), Ensure(Image), Ensure(Profile)]);
            Calm(e) && Shared <= e.world.Keys
  {
    hide Execute;
    var a, b, c, g := [Ensure(ACL)], [Ensure(Network)], [Ensure(Project)], [Ensure(Image)];
    assert [Ensure(ACL), Ensure(Network), Ensure(Project), Ensure(Image), Ensure(Profile)] == a + b + c + g + [Ensure(Profile)];
    ExecuteMore(d, q, a + b + c + g, [Ensure(Profile)]);
    ExecuteMore(d, q, a + b + c, g);
    ExecuteMore(d, q, a + b, c);
    ExecuteMore(d, q, a, b);
    EnsureWorks(d, q, ACL);
    EnsureWorks(Execute(d, q, a), q, Network);
    EnsureWorks(Execute(d, q, a + b), q, Project);
    EnsureWorks(Execute(d, q, a + b + c), q, Image);
    EnsureWorks(Execute(d, q, a + b + c + g), q, Profile);
  }

  ghost predicate AllRunning(w: World, nodes: seq<Id>) { forall i <- nodes :: Instance(i) in w && w[Instance(i)].running }

  lemma NodeComes(d: Done, q: Request, i: Id)
    requires Calm(d) && Shared <= d.world.Keys
    ensures var e := Execute(d, q, [Ensure(Instance(i)), Start(i)]);
            && Calm(e) && d.world.Keys <= e.world.Keys && Instance(i) in e.world && e.world[Instance(i)].running
            && forall k <- d.world :: d.world[k].running ==> e.world[k].running
  {
    assert [Ensure(Instance(i)), Start(i)] == [Ensure(Instance(i))] + [Start(i)];
    ExecuteMore(d, q, [Ensure(Instance(i))], [Start(i)]);
    ExecuteOne(d, q, Ensure(Instance(i)));
    ExecuteOne(Execute(d, q, [Ensure(Instance(i))]), q, Start(i));
  }

  lemma {:induction false} NodesCome(d: Done, q: Request, nodes: seq<Id>)
    requires Calm(d) && Shared <= d.world.Keys
    ensures var e := Execute(d, q, EachBuild(nodes));
            Calm(e) && d.world.Keys <= e.world.Keys && AllRunning(e.world, nodes)
  {
    hide Execute;
    if nodes == [] {
      NothingToDo(d, q);
    } else {
      var init, last := nodes[..|nodes| - 1], nodes[|nodes| - 1];
      NodesCome(d, q, init);
      ExecuteMore(d, q, EachBuild(init), [Ensure(Instance(last)), Start(last)]);
      NodeComes(Execute(d, q, EachBuild(init)), q, last);
      assert forall i <- nodes :: i in init || i == last;
    }
  }

  lemma {:induction false} RunningAlready(d: Done, q: Request, nodes: seq<Id>)
    requires Calm(d) && AllRunning(d.world, nodes)
    ensures var e := Execute(d, q, EachRunning(nodes)); Calm(e) && e.world == d.world
  {
    if nodes != [] {
      var init := nodes[..|nodes| - 1];
      RunningAlready(d, q, init);
      assert EachRunning(nodes)[..|nodes| - 1] == EachRunning(init);
    }
  }

  /** Everything is there, running, of this generation and marked so. */
  ghost predicate Rebuilt(w: World, q: Request) {
    Shared <= w.Keys && AllRunning(w, q.nodes) && KnownNodes(w, q.nodes) && Carries(w, q.stamp) && AllMade(w, q.generation)
  }

  lemma BuildCompletes(d: Done, q: Request)
    requires Calm(d)
    ensures var e := Execute(d, q, BuildCalls(q.nodes)); Calm(e) && Shared <= e.world.Keys && AllRunning(e.world, q.nodes)
  {
    hide Execute;
    var shared := [Ensure(ACL), Ensure(Network), Ensure(Project), Ensure(Image), Ensure(Profile)];
    ExecuteMore(d, q, shared + EachBuild(q.nodes), EachRunning(q.nodes));
    ExecuteMore(d, q, shared, EachBuild(q.nodes));
    SharedComes(d, q);
    NodesCome(Execute(d, q, shared), q, q.nodes);
    RunningAlready(Execute(d, q, shared + EachBuild(q.nodes)), q, q.nodes);
  }

  /** However earlier attempts ended, one without faults rebuilds everything. */
  lemma ResetCompletes(w: World, q: Request)
    requires Inv(w, q.nodes, q.generation) && q.stamp == q.generation > 0
    ensures Reset(w, q, []).ok && Rebuilt(Reset(w, q, []).world, q)
  {
    hide Execute;
    WipeCompletes(w, q);
    WipeShrinks(w, q, []);
    var wiped := Wipe(w, q, []);
    assert AllMade(wiped.world, q.generation);
    BuildCompletes(wiped, q);
    BuildCallsBuild(q);
    BuildingGrows(wiped, q, BuildCalls(q.nodes));
    StampIsKept(wiped, q, BuildCalls(q.nodes));
  }

  // ---- What an answer is worth ----

  lemma {:induction false} EnsuredIsThere(d: Done, q: Request, calls: seq<Call>, r: Resource)
    requires d.ok && Nested(d.world) && KnownNodes(d.world, q.nodes) && Builds(q, calls) && Ensure(r) in calls
    ensures Execute(d, q, calls).ok ==> r in Execute(d, q, calls).world
  {
    hide AllMade;
    var init, last := calls[..|calls| - 1], calls[|calls| - 1];
    BuildingGrows(d, q, init);
    BuildingGrows(d, q, calls);
    if last != Ensure(r) {
      EnsuredIsThere(d, q, init, r);
      var before := Execute(d, q, init);
      if before.ok { AskKeeps(before.world, q, last, Next(before.faults)); }
    }
  }

  lemma {:induction false} AwaitedIsRunning(d: Done, q: Request, nodes: seq<Id>)
    ensures var e := Execute(d, q, EachRunning(nodes)); e.ok ==> e.world == d.world && AllRunning(e.world, nodes)
  {
    if nodes != [] {
      var init := nodes[..|nodes| - 1];
      AwaitedIsRunning(d, q, init);
      assert EachRunning(nodes)[..|nodes| - 1] == EachRunning(init);
      assert forall i <- nodes :: i in init || i == nodes[|nodes| - 1];
    }
  }

  /** A provision that says it is done has made everything and seen every node run, whatever was lost on the way. */
  lemma BuiltIsRunning(d: Done, q: Request)
    requires d.ok && Nested(d.world) && KnownNodes(d.world, q.nodes)
    ensures var e := Execute(d, q, BuildCalls(q.nodes)); e.ok ==> Shared <= e.world.Keys && AllRunning(e.world, q.nodes)
  {
    hide Execute;
    var calls := [Ensure(ACL), Ensure(Network), Ensure(Project), Ensure(Image), Ensure(Profile)] + EachBuild(q.nodes);
    BuildCallsBuild(q);
    forall r | r in Shared ensures Execute(d, q, BuildCalls(q.nodes)).ok ==> r in Execute(d, q, BuildCalls(q.nodes)).world {
      assert BuildCalls(q.nodes)[..5] == [Ensure(ACL), Ensure(Network), Ensure(Project), Ensure(Image), Ensure(Profile)];
      assert Ensure(r) in BuildCalls(q.nodes)[..5];
      EnsuredIsThere(d, q, BuildCalls(q.nodes), r);
    }
    ExecuteMore(d, q, calls, EachRunning(q.nodes));
    AwaitedIsRunning(Execute(d, q, calls), q, q.nodes);
  }

  /** And so a reset that says it is done has rebuilt everything, in whatever way its calls went. */
  lemma ResetIsWhatItSays(w: World, q: Request, faults: seq<Fault>)
    requires Inv(w, q.nodes, q.generation) && q.stamp == q.generation > 0 && Reset(w, q, faults).ok
    ensures Rebuilt(Reset(w, q, faults).world, q)
  {
    hide Execute;
    var wiped := Wipe(w, q, faults);
    if !wiped.ok { FailedStops(wiped, q, BuildCalls(q.nodes)); }
    WipeShrinks(w, q, faults);
    if !Carries(w, q.stamp) { WipedIsEmpty(w, q, faults); }
    assert AllMade(wiped.world, q.generation);
    BuiltIsRunning(wiped, q);
    BuildCallsBuild(q);
    BuildingGrows(wiped, q, BuildCalls(q.nodes));
    StampIsKept(wiped, q, BuildCalls(q.nodes));
  }

  // ---- Runs ----

  datatype Op = DoProvision(faults: seq<Fault>) | DoReset(n: nat, faults: seq<Fault>) | DoRelease(faults: seq<Fault>)

  datatype Environment = Environment(world: World, generation: nat)

  /** A release deletes, and asks for no generation. */
  function Release(w: World, nodes: seq<Id>, generation: nat, faults: seq<Fault>): Done {
    Wipe(w, Request(nodes, 0, generation), faults)
  }

  /** A reset is asked for a generation that is not behind. */
  function Step(nodes: seq<Id>, e: Environment, op: Op): Environment {
    match op
    case DoRelease(faults) => e.(world := Release(e.world, nodes, e.generation, faults).world)
    case DoProvision(faults) => e.(world := Provision(e.world, Request(nodes, 0, e.generation), faults).world)
    case DoReset(n, faults) =>
      if n == 0 || n < e.generation then e else Environment(Reset(e.world, Request(nodes, n, n), faults).world, n)
  }

  function After(nodes: seq<Id>, ops: seq<Op>): Environment {
    if ops == [] then Environment(map[], 0) else Step(nodes, After(nodes, ops[..|ops| - 1]), ops[|ops| - 1])
  }

  lemma AskStamped(w: World, q: Request, call: Call, fault: Fault)
    requires Stamped(w, q.generation) && q.stamp == 0 && !call.Wipes()
    ensures Stamped(Ask(w, q, call, fault).world, q.generation)
  {
  }

  lemma {:induction false} UnstampedBuild(d: Done, q: Request, calls: seq<Call>)
    requires d.ok && Nested(d.world) && KnownNodes(d.world, q.nodes) && Builds(q, calls) && Stamped(d.world, q.generation) && q.stamp == 0
    ensures Stamped(Execute(d, q, calls).world, q.generation)
  {
    hide Stamped;
    if calls != [] {
      var init := calls[..|calls| - 1];
      UnstampedBuild(d, q, init);
      BuildingGrows(d, q, init);
      var before := Execute(d, q, init);
      if before.ok { AskStamped(before.world, q, calls[|calls| - 1], Next(before.faults)); }
    }
  }

  lemma ProvisionKeeps(w: World, q: Request, faults: seq<Fault>)
    requires Inv(w, q.nodes, q.generation) && q.stamp == 0
    ensures var d := Provision(w, q, faults); Inv(d.world, q.nodes, q.generation) && Grows(w, d.world)
  {
    var d := Done(w, true, faults, []);
    BuildCallsBuild(q);
    BuildingGrows(d, q, BuildCalls(q.nodes));
    UnstampedBuild(d, q, BuildCalls(q.nodes));
  }

  lemma {:induction false} RunsKeep(nodes: seq<Id>, ops: seq<Op>)
    ensures var e := After(nodes, ops); Inv(e.world, nodes, e.generation)
  {
    if ops != [] {
      var init, op := ops[..|ops| - 1], ops[|ops| - 1];
      RunsKeep(nodes, init);
      var e := After(nodes, init);
      match op {
        case DoProvision(faults) => ProvisionKeeps(e.world, Request(nodes, 0, e.generation), faults);
        case DoReset(n, faults) =>
          if n >= e.generation && n > 0 { ResetIsFenced(e.world, Request(nodes, n, n), faults); }
        case DoRelease(faults) => ReleaseKeeps(nodes, e, faults);
      }
    }
  }

  lemma ReleaseKeeps(nodes: seq<Id>, e: Environment, faults: seq<Fault>)
    requires Inv(e.world, nodes, e.generation)
    ensures Inv(Release(e.world, nodes, e.generation, faults).world, nodes, e.generation)
  {
    hide Wipe;
    WipeShrinks(e.world, Request(nodes, 0, e.generation), faults);
  }

  /** In every run a release that says it is done has left nothing, whatever generation the environment was stamped
      with; and one without faults says so. */
  lemma ReleaseLeavesNothing(nodes: seq<Id>, ops: seq<Op>, faults: seq<Fault>)
    ensures var e := After(nodes, ops);
            && (Release(e.world, nodes, e.generation, faults).ok ==> Release(e.world, nodes, e.generation, faults).world == map[])
            && Release(e.world, nodes, e.generation, []).ok
  {
    hide Wipe;
    RunsKeep(nodes, ops);
    var e := After(nodes, ops);
    WipeCompletes(e.world, Request(nodes, 0, e.generation));
    if Release(e.world, nodes, e.generation, faults).ok { WipedIsEmpty(e.world, Request(nodes, 0, e.generation), faults); }
  }

  /** In every run a provision that says it is done ends with everything there and running; and one without faults
      says so. */
  lemma ProvisionCompletes(nodes: seq<Id>, ops: seq<Op>, faults: seq<Fault>)
    ensures var e := After(nodes, ops);
            var q := Request(nodes, 0, e.generation);
            && (var d := Provision(e.world, q, faults); d.ok ==> Shared <= d.world.Keys && AllRunning(d.world, nodes))
            && Provision(e.world, q, []).ok
  {
    RunsKeep(nodes, ops);
    var e := After(nodes, ops);
    BuiltIsRunning(Done(e.world, true, faults, []), Request(nodes, 0, e.generation));
    BuildCompletes(Done(e.world, true, [], []), Request(nodes, 0, e.generation));
  }

  /** Whatever went wrong before, a reset that says it is done ends with everything rebuilt; and one without faults says so. */
  lemma Converges(nodes: seq<Id>, ops: seq<Op>, n: nat, faults: seq<Fault>)
    requires n > 0 && After(nodes, ops).generation <= n
    ensures var w, q := After(nodes, ops).world, Request(nodes, n, n);
            && (Reset(w, q, faults).ok ==> Rebuilt(Reset(w, q, faults).world, q))
            && Reset(w, q, []).ok
  {
    hide Reset, Rebuilt;
    RunsKeep(nodes, ops);
    var w, q := After(nodes, ops).world, Request(nodes, n, n);
    ResetCompletes(w, q);
    if Reset(w, q, faults).ok { ResetIsWhatItSays(w, q, faults); }
  }

  /** In every run, no call of a reset of generation n wipes anything while the project is stamped n, and none
      builds anything while something of an earlier generation is left. */
  lemma EveryResetIsFenced(nodes: seq<Id>, ops: seq<Op>, n: nat, faults: seq<Fault>, x: Event)
    requires n > 0 && After(nodes, ops).generation <= n && x in Reset(After(nodes, ops).world, Request(nodes, n, n), faults).trace
    ensures x.call.Wipes() ==> !Carries(x.before, n)
    ensures !x.call.Wipes() ==> AllMade(x.before, n)
  {
    hide Reset;
    RunsKeep(nodes, ops);
    ResetIsFenced(After(nodes, ops).world, Request(nodes, n, n), faults);
  }

  /** Once the project is stamped n, further attempts and provisions only add to it, until a later generation is asked
      for or the environment is released. */
  lemma {:induction false} ProgressIsKept(nodes: seq<Id>, ops: seq<Op>, more: seq<Op>, n: nat)
    requires After(nodes, ops).generation == n && Carries(After(nodes, ops).world, n)
    requires forall op <- more :: !op.DoRelease? && (op.DoReset? ==> op.n == n)
    ensures After(nodes, ops + more).generation == n && Carries(After(nodes, ops + more).world, n)
    ensures Grows(After(nodes, ops).world, After(nodes, ops + more).world)
  {
    hide Reset, Provision;
    if more == [] {
      assert ops + more == ops;
    } else {
      var init, op := more[..|more| - 1], more[|more| - 1];
      ProgressIsKept(nodes, ops, init, n);
      assert (ops + more)[..|ops + more| - 1] == ops + init;
      RunsKeep(nodes, ops + init);
      var e := After(nodes, ops + init);
      assert op in more;
      match op {
        case DoProvision(faults) => ProvisionKeeps(e.world, Request(nodes, 0, n), faults);
        case DoReset(_, faults) => ResetIsFenced(e.world, Request(nodes, n, n), faults);
      }
    }
  }

  // ---- The client ----

  /** The provider client. Its calls change the provider's world; `faults` is what goes wrong, call by call. */
  class Client {
    var world: World
    var faults: seq<Fault>
    ghost var trace: seq<Event>

    ghost function Now(ok: bool): Done
      reads this
    {
      Done(world, ok, faults, trace)
    }

    method Send(q: Request, call: Call) returns (ok: bool)
      modifies this
      ensures Now(ok) == Execute(old(Now(true)), q, [call])
    {
      ExecuteOne(Now(true), q, call);
      var answer := Ask(world, q, call, Next(faults));
      trace := trace + [Event(call, world)];
      world, faults := answer.world, Rest(faults);
      return answer.ok;
    }

    /** Makes the calls in turn, one for each node or one after the other; ends at the first failure. */
    method CallEach(q: Request, calls: seq<Call>) returns (ok: bool)
      modifies this
      ensures Now(ok) == Execute(old(Now(true)), q, calls)
    {
      ghost var start := Now(true);
      var i := 0;
      while i < |calls|
        invariant 0 <= i <= |calls|
        invariant Now(true) == Execute(start, q, calls[..i])
      {
        ExecuteMore(start, q, calls[..i], [calls[i]]);
        assert calls[..i + 1] == calls[..i] + [calls[i]];
        ok := Send(q, calls[i]);
        i := i + 1;
        if !ok {
          ExecuteMore(start, q, calls[..i], calls[i..]);
          assert calls == calls[..i] + calls[i..];
          FailedStops(Now(false), q, calls[i..]);
          return false;
        }
      }
      assert calls[..i] == calls;
      return true;
    }

    method DeleteNodeEnvironment(q: Request) returns (ok: bool)
      modifies this
      ensures Now(ok) == Wipe(old(world), q, old(faults))
    {
      hide Execute;
      trace := [];
      var looked := Next(faults);
      faults := Rest(faults);
      if looked != Works { return false; }
      var projectExists := Project in world;
      if projectExists && q.stamp > 0 && world[Project].stamp == q.stamp { return true; }
      ghost var start, rest := Now(true), [Remove(Network), Remove(ACL)];
      if projectExists {
        ghost var a, b, c, g := EachStop(q.nodes), EachStopped(q.nodes), EachRemove(q.nodes), EachGone(q.nodes);
        ghost var last := [Remove(Image), Remove(Profile), Remove(Project)];
        assert a + b + c + g + last + rest == WipeCalls(q.nodes, true);
        ExecuteMore(start, q, a, b);
        ExecuteMore(start, q, a + b, c);
        ExecuteMore(start, q, a + b + c, g);
        ExecuteMore(start, q, a + b + c + g, last);
        ExecuteMore(start, q, a + b + c + g + last, rest);
        ok := CallEach(q, EachStop(q.nodes));
        if ok { ok := CallEach(q, EachStopped(q.nodes)); } else { FailedStops(Now(false), q, b); }
        if ok { ok := CallEach(q, EachRemove(q.nodes)); } else { FailedStops(Now(false), q, c); }
        if ok { ok := CallEach(q, EachGone(q.nodes)); } else { FailedStops(Now(false), q, g); }
        if ok { ok := CallEach(q, [Remove(Image), Remove(Profile), Remove(Project)]); } else { FailedStops(Now(false), q, last); }
        if !ok { FailedStops(Now(false), q, rest); return false; }
      } else {
        assert WipeCalls(q.nodes, false) == rest;
      }
      ok := CallEach(q, [Remove(Network), Remove(ACL)]);
    }

    method ProvisionNodeEnvironment(q: Request) returns (ok: bool)
      modifies this
      ensures Now(ok) == Execute(old(Now(true)), q, BuildCalls(q.nodes))
    {
      hide Execute;
      ghost var start := Now(true);
      ghost var shared := [Ensure(ACL), Ensure(Network), Ensure(Project), Ensure(Image), Ensure(Profile)];
      ExecuteMore(start, q, shared, EachBuild(q.nodes));
      ExecuteMore(start, q, shared + EachBuild(q.nodes), EachRunning(q.nodes));
      ok := CallEach(q, [Ensure(ACL), Ensure(Network), Ensure(Project), Ensure(Image), Ensure(Profile)]);
      if ok { ok := CallEach(q, EachBuild(q.nodes)); } else { FailedStops(Now(false), q, EachBuild(q.nodes)); }
      if ok { ok := CallEach(q, EachRunning(q.nodes)); } else { FailedStops(Now(false), q, EachRunning(q.nodes)); }
    }

    /** Wipe, then rebuild. */
    method ResetNode(q: Request) returns (ok: bool)
      modifies this
      ensures Now(ok) == Reset(old(world), q, old(faults))
    {
      hide Execute;
      ok := DeleteNodeEnvironment(q);
      if !ok {
        FailedStops(Now(false), q, BuildCalls(q.nodes));
        return false;
      }
      ok := ProvisionNodeEnvironment(q);
    }
  }
}
