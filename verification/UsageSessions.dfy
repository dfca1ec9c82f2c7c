/** Terminal connections and the usage sessions learning time is counted from. */
module UsageSessions {
  import opened Base

  datatype Connection = Connection(environment: Id, heartbeat: Time, disconnected: Option<Time>)
  {
    predicate Live() { disconnected.None? }
  }

  /** A usage session's identity is its environment and the instant it was opened at. */
  datatype Key = Key(environment: Id, started: Time)

  datatype Session = Session(heartbeat: Time, ended: Option<Time>)

  datatype Activity = Activity(connections: map<Id, Connection>, sessions: map<Key, Session>)

  const Empty := Activity(map[], map[])

  datatype Step<+T> = Step(after: Activity, out: Outcome<T>)

  predicate HasLive(connections: map<Id, Connection>, environment: Id) {
    exists c <- connections :: connections[c].environment == environment && connections[c].Live()
  }

  predicate IsOpen(sessions: map<Key, Session>, environment: Id, k: Key) {
    k in sessions && k.environment == environment && sessions[k].ended.None?
  }

  predicate HasOpen(sessions: map<Key, Session>, environment: Id) { exists k <- sessions :: IsOpen(sessions, environment, k) }

  // ---- Transactions ----

  /** The new session is dropped when one is open, or when its identity is taken. */
  function OpenSession(sessions: map<Key, Session>, environment: Id, at: Time): map<Key, Session> {
    if HasOpen(sessions, environment) || Key(environment, at) in sessions then sessions
    else sessions[Key(environment, at) := Session(at, None)]
  }

  function Open(s: Activity, id: Id, environment: Id, at: Time): Step<()> {
    if id in s.connections then Step(s, Err(Constraint))
    else Step(Activity(s.connections[id := Connection(environment, at, None)], OpenSession(s.sessions, environment, at)), Ok(()))
  }

  function Beat(sessions: map<Key, Session>, environment: Id, at: Time): map<Key, Session> {
    map k | k in sessions :: if IsOpen(sessions, environment, k) then sessions[k].(heartbeat := at) else sessions[k]
  }

  function Touch(s: Activity, id: Id, at: Time): Step<()> {
    if id !in s.connections || !s.connections[id].Live() then Step(s, Ok(()))
    else Step(Activity(s.connections[id := s.connections[id].(heartbeat := at)], Beat(s.sessions, s.connections[id].environment, at)), Ok(()))
  }

  /** Closes one connection; says whether it was the environment's last. */
  function Close(s: Activity, id: Id, at: Time): Step<bool> {
    if id !in s.connections then Step(s, Ok(false))
    else
      var c := s.connections[id];
      var t := if c.Live() then s.(connections := s.connections[id := Connection(c.environment, at, Some(at))]) else s;
      Step(t, Ok(!HasLive(t.connections, c.environment)))
  }

  function End(sessions: map<Key, Session>, environment: Id, at: Time): map<Key, Session> {
    map k | k in sessions :: if IsOpen(sessions, environment, k) then Session(at, Some(at)) else sessions[k]
  }

  /** Ends the environment's session once nothing is connected to it; says whether there was one. */
  function Finish(s: Activity, environment: Id, at: Time): Step<bool> {
    if HasLive(s.connections, environment) then Step(s, Ok(false))
    else Step(s.(sessions := End(s.sessions, environment, at)), Ok(HasOpen(s.sessions, environment)))
  }

  function Drop(connections: map<Id, Connection>, stale: set<Id>, at: Time): map<Id, Connection> {
    map c | c in connections :: if c in stale && connections[c].Live() then connections[c].(disconnected := Some(at)) else connections[c]
  }

  function EndOrphans(connections: map<Id, Connection>, sessions: map<Key, Session>, at: Time): map<Key, Session> {
    map k | k in sessions ::
      if sessions[k].ended.None? && !HasLive(connections, k.environment) then Session(at, Some(at)) else sessions[k]
  }

  /** Which connections are stale is decided on the text of a time: any may be. */
  function Cleanup(s: Activity, stale: set<Id>, at: Time): Step<()> {
    var connections := Drop(s.connections, stale, at);
    Step(Activity(connections, EndOrphans(connections, s.sessions, at)), Ok(()))
  }

  /** Which closed connections are old enough is decided on the text of a time: any may be. */
  function DeleteClosed(s: Activity, closed: set<Id>): Step<()> {
    Step(s.(connections := map c | c in s.connections && !(c in closed && !s.connections[c].Live()) :: s.connections[c]), Ok(()))
  }

  // ---- Runs ----

  datatype Op =
    | DoOpen(at: Time, id: Id, environment: Id)
    | DoTouch(at: Time, id: Id)
    | DoClose(at: Time, id: Id)
    | DoFinish(at: Time, environment: Id)
    | DoCleanup(at: Time, stale: set<Id>)
    | DoDelete(at: Time, closed: set<Id>)

  function Next(s: Activity, op: Op): Activity {
    match op
    case DoOpen(at, id, environment) => Open(s, id, environment, at).after
    case DoTouch(at, id) => Touch(s, id, at).after
    case DoClose(at, id) => Close(s, id, at).after
    case DoFinish(at, environment) => Finish(s, environment, at).after
    case DoCleanup(at, stale) => Cleanup(s, stale, at).after
    case DoDelete(_, closed) => DeleteClosed(s, closed).after
  }

  function After(ops: seq<Op>): Activity {
    if ops == [] then Empty else Next(After(ops[..|ops| - 1]), ops[|ops| - 1])
  }

  /** Time does not run backwards; it may stand still. */
  ghost predicate Timely(ops: seq<Op>) { forall i, j | 0 <= i < j < |ops| :: ops[i].at <= ops[j].at }

  // ---- One open session ----

  ghost predicate OneOpen(sessions: map<Key, Session>) {
    forall e, j, k | IsOpen(sessions, e, j) && IsOpen(sessions, e, k) :: j == k
  }

  lemma NextKeepsOne(s: Activity, op: Op)
    requires OneOpen(s.sessions)
    ensures OneOpen(Next(s, op).sessions)
  {
    var t := Next(s, op).sessions;
    forall e, j, k | IsOpen(t, e, j) && IsOpen(t, e, k) ensures j == k {
      assert j in s.sessions ==> IsOpen(s.sessions, e, j);
      assert k in s.sessions ==> IsOpen(s.sessions, e, k);
    }
  }

  lemma {:induction false} AfterOne(ops: seq<Op>)
    ensures OneOpen(After(ops).sessions)
  {
    if ops != [] {
      AfterOne(ops[..|ops| - 1]);
      NextKeepsOne(After(ops[..|ops| - 1]), ops[|ops| - 1]);
    }
  }

  /** In every run no environment ever has two open sessions, whatever the clocks say. */
  lemma OneOpenSession(ops: seq<Op>, environment: Id, j: Key, k: Key)
    requires IsOpen(After(ops).sessions, environment, j) && IsOpen(After(ops).sessions, environment, k)
    ensures j == k
  {
    AfterOne(ops);
  }

  // ---- Disjoint intervals ----

  /** Of two sessions of an environment the earlier ended before the later began. */
  ghost predicate Ordered(sessions: map<Key, Session>) {
    forall j, k | j in sessions && k in sessions && j.environment == k.environment && j.started < k.started ::
      sessions[j].ended.Some? && sessions[j].ended.value <= k.started
  }

  /** The sessions of each environment are intervals, one after the other. */
  ghost predicate Fits(sessions: map<Key, Session>) {
    Ordered(sessions) && forall k <- sessions :: sessions[k].ended.Some? ==> k.started <= sessions[k].ended.value
  }

  /** A session is opened before the end of one the environment has had. */
  predicate OpensEarly(s: Activity, op: Op) {
    && op.DoOpen? && op.id !in s.connections && !HasOpen(s.sessions, op.environment)
    && Key(op.environment, op.at) !in s.sessions
    && exists k <- s.sessions ::
         k.environment == op.environment && s.sessions[k].ended.Some? && op.at < s.sessions[k].ended.value
  }

  /** An open session is ended before its own start. */
  predicate EndsEarly(s: Activity, op: Op) {
    match op
    case DoFinish(at, environment) =>
      !HasLive(s.connections, environment) && exists k <- s.sessions :: IsOpen(s.sessions, environment, k) && at < k.started
    case DoCleanup(at, stale) =>
      exists k <- s.sessions ::
        s.sessions[k].ended.None? && !HasLive(Drop(s.connections, stale, at), k.environment) && at < k.started
    case _ => false
  }

  /** The step's clock is behind what the table holds. */
  predicate Skews(s: Activity, op: Op) { OpensEarly(s, op) || EndsEarly(s, op) }

  lemma SkewBreaks(s: Activity, op: Op)
    requires Fits(s.sessions) && Skews(s, op)
    ensures !Fits(Next(s, op).sessions)
  {
    var t := Next(s, op).sessions;
    match op {
      case DoOpen(at, _, environment) =>
        var k :| k in s.sessions && k.environment == environment && s.sessions[k].ended.Some? && at < s.sessions[k].ended.value;
        assert k in t && Key(environment, at) in t && t[k] == s.sessions[k] && t[Key(environment, at)].ended.None?;
        assert k.started < at || at < k.started;
      case DoFinish(at, environment) =>
        var k :| k in s.sessions && IsOpen(s.sessions, environment, k) && at < k.started;
        assert t[k] == Session(at, Some(at));
      case DoCleanup(at, stale) =>
        var k :| k in s.sessions && s.sessions[k].ended.None? && !HasLive(Drop(s.connections, stale, at), k.environment) && at < k.started;
        assert t[k] == Session(at, Some(at));
      case _ =>
    }
  }

  lemma NoSkewKeeps(s: Activity, op: Op)
    requires Fits(s.sessions) && !Skews(s, op)
    ensures Fits(Next(s, op).sessions)
  {
    if op.DoOpen? && !HasOpen(s.sessions, op.environment) {
      forall k | k in s.sessions && k.environment == op.environment ensures s.sessions[k].ended.Some? {
        assert !IsOpen(s.sessions, op.environment, k);
      }
    }
  }

  /** A step takes the intervals apart exactly when its clock is behind: it opens a session before the end of
      another, or ends one before its start. */
  lemma FitIsLostIff(s: Activity, op: Op)
    requires Fits(s.sessions)
    ensures Fits(Next(s, op).sessions) <==> !Skews(s, op)
  {
    if Skews(s, op) { SkewBreaks(s, op); } else { NoSkewKeeps(s, op); }
  }

  ghost predicate NoneSkews(ops: seq<Op>) { forall i | 0 <= i < |ops| :: !Skews(After(ops[..i]), ops[i]) }

  ghost predicate FitsThroughout(ops: seq<Op>) { forall i | 0 <= i <= |ops| :: Fits(After(ops[..i]).sessions) }

  lemma FitsByLast(ops: seq<Op>)
    requires ops != []
    ensures FitsThroughout(ops) <==> FitsThroughout(ops[..|ops| - 1]) && Fits(After(ops).sessions)
  {
    hide Fits, After;
    var init := ops[..|ops| - 1];
    assert ops[..|ops|] == ops && forall i | 0 <= i <= |init| :: init[..i] == ops[..i];
  }

  lemma SkewsByLast(ops: seq<Op>)
    requires ops != []
    ensures NoneSkews(ops) <==> NoneSkews(ops[..|ops| - 1]) && !Skews(After(ops[..|ops| - 1]), ops[|ops| - 1])
  {
    hide Skews, After;
    var init := ops[..|ops| - 1];
    assert forall i | 0 <= i < |init| :: init[..i] == ops[..i] && init[i] == ops[i];
  }

  /** The intervals fit all along a run exactly when no step of it is behind. */
  lemma {:induction false} FitsThroughoutIff(ops: seq<Op>)
    ensures FitsThroughout(ops) <==> NoneSkews(ops)
    ensures NoneSkews(ops) ==> Fits(After(ops).sessions)
  {
    hide Fits, Skews, Next, FitsThroughout, NoneSkews;
    if ops == [] {
      NothingFits();
    } else {
      var init, op := ops[..|ops| - 1], ops[|ops| - 1];
      FitsThroughoutIff(init);
      FitsByLast(ops);
      SkewsByLast(ops);
      if NoneSkews(init) { FitIsLostIff(After(init), op); }
    }
  }

  lemma NothingFits()
    ensures FitsThroughout([]) && NoneSkews([]) && Fits(After([]).sessions)
  {
  }

  /** Nothing in the table is later than now. */
  ghost predicate Recent(sessions: map<Key, Session>, now: Time) {
    forall k <- sessions :: k.started <= now && (sessions[k].ended.Some? ==> sessions[k].ended.value <= now)
  }

  ghost predicate Inv(sessions: map<Key, Session>, now: Time) { Fits(sessions) && Recent(sessions, now) }

  lemma NextRecent(s: Activity, op: Op, now: Time)
    requires Recent(s.sessions, now) && op.at <= now
    ensures Recent(Next(s, op).sessions, now)
  {
  }

  lemma {:induction false} AfterRecent(ops: seq<Op>, now: Time)
    requires forall op <- ops :: op.at <= now
    ensures Recent(After(ops).sessions, now)
  {
    if ops != [] {
      AfterRecent(ops[..|ops| - 1], now);
      NextRecent(After(ops[..|ops| - 1]), ops[|ops| - 1], now);
    }
  }

  lemma AfterKeeps(ops: seq<Op>, now: Time)
    requires NoneSkews(ops) && forall op <- ops :: op.at <= now
    ensures Inv(After(ops).sessions, now)
  {
    FitsThroughoutIff(ops);
    AfterRecent(ops, now);
  }

  /** Servers that agree on the time never fall behind. */
  lemma TimelySkewsNone(ops: seq<Op>)
    requires Timely(ops)
    ensures NoneSkews(ops)
  {
    forall i | 0 <= i < |ops| ensures !Skews(After(ops[..i]), ops[i]) {
      assert forall op <- ops[..i] :: op.at <= ops[i].at;
      AfterRecent(ops[..i], ops[i].at);
    }
  }

  // ---- Learning time ----

  function EndOf(sessions: map<Key, Session>, k: Key, now: Time): Time
    requires k in sessions
  {
    if sessions[k].ended.Some? then sessions[k].ended.value else now
  }

  /** An instant lies in a session. */
  ghost predicate Covers(sessions: map<Key, Session>, k: Key, now: Time, t: Time) {
    k in sessions && k.started <= t < EndOf(sessions, k, now)
  }

  /** No instant of an environment is counted twice, at whatever time the counting is done. */
  lemma CountedOnce(ops: seq<Op>, now: Time, t: Time, j: Key, k: Key)
    requires NoneSkews(ops)
    requires Covers(After(ops).sessions, j, now, t) && Covers(After(ops).sessions, k, now, t) && j.environment == k.environment
    ensures j == k
  {
    FitsThroughoutIff(ops);
  }

  ghost predicate IsLatest(keys: set<Key>, k: Key) { k in keys && forall j <- keys :: j.started <= k.started }

  lemma {:induction false} LatestExists(keys: set<Key>)
    requires keys != {}
    ensures exists k :: IsLatest(keys, k)
  {
    var k :| k in keys;
    if keys - {k} == {} {
      assert forall j <- keys :: j != k ==> j in keys - {k};
      assert IsLatest(keys, k);
    } else {
      LatestExists(keys - {k});
      var m :| IsLatest(keys - {k}, m);
      assert IsLatest(keys, if k.started >= m.started then k else m);
    }
  }

  /** The exact lengths of an environment's sessions, summed; latest first. */
  ghost function Total(sessions: map<Key, Session>, keys: set<Key>, now: Time): int
    requires forall k <- keys :: k in sessions
  {
    if keys == {} then 0
    else
      LatestExists(keys);
      var k :| IsLatest(keys, k);
      EndOf(sessions, k, now) - k.started + Total(sessions, keys - {k}, now)
  }

  lemma {:induction false} TotalIsBounded(sessions: map<Key, Session>, keys: set<Key>, environment: Id, first: Time, now: Time)
    requires Inv(sessions, now) && (forall k <- keys :: k in sessions && k.environment == environment && first <= k.started)
    ensures keys != {} ==> exists k <- keys :: Total(sessions, keys, now) <= EndOf(sessions, k, now) - first && IsLatest(keys, k)
    ensures keys == {} ==> Total(sessions, keys, now) == 0
  {
    if keys != {} {
      LatestExists(keys);
      var k :| IsLatest(keys, k) && Total(sessions, keys, now) == EndOf(sessions, k, now) - k.started + Total(sessions, keys - {k}, now);
      TotalIsBounded(sessions, keys - {k}, environment, first, now);
      if keys - {k} != {} {
        var m :| m in keys - {k} && Total(sessions, keys - {k}, now) <= EndOf(sessions, m, now) - first && IsLatest(keys - {k}, m);
        assert m.started != k.started;
      }
    }
  }

  /** Learning time never exceeds the time that has passed since the environment's first session began. */
  lemma LearningTimeIsBounded(ops: seq<Op>, now: Time, environment: Id, first: Time)
    requires NoneSkews(ops) && forall op <- ops :: op.at <= now
    requires forall k <- After(ops).sessions :: k.environment == environment ==> first <= k.started
    requires exists k <- After(ops).sessions :: k.environment == environment
    ensures var keys := set k | k in After(ops).sessions && k.environment == environment;
            0 <= Total(After(ops).sessions, keys, now) <= now - first
  {
    var sessions := After(ops).sessions;
    var keys := set k | k in sessions && k.environment == environment;
    AfterKeeps(ops, now);
    var some :| some in sessions && some.environment == environment;
    assert some in keys;
    TotalIsBounded(sessions, keys, environment, first, now);
    TotalIsPositive(sessions, keys, now);
  }

  lemma {:induction false} TotalIsPositive(sessions: map<Key, Session>, keys: set<Key>, now: Time)
    requires Inv(sessions, now) && forall k <- keys :: k in sessions
    ensures Total(sessions, keys, now) >= 0
  {
    if keys == {} {
      assert Total(sessions, keys, now) == 0;
    } else {
      LatestExists(keys);
      var k :| IsLatest(keys, k) && Total(sessions, keys, now) == EndOf(sessions, k, now) - k.started + Total(sessions, keys - {k}, now);
      assert k in sessions && k.started <= EndOf(sessions, k, now);
      TotalIsPositive(sessions, keys - {k}, now);
    }
  }

  /** Without agreement on the time, intervals overlap: a server whose clock is behind opens a session inside one that ended. */
  lemma SkewOverlaps()
    ensures var ops := [DoOpen(10, 1, 7), DoClose(20, 1), DoFinish(20, 7), DoOpen(15, 2, 7)];
            var s := After(ops).sessions;
            Covers(s, Key(7, 10), 30, 17) && Covers(s, Key(7, 15), 30, 17) && Skews(After(ops[..3]), ops[3])
  {
    var a := [DoOpen(10, 1, 7)];
    var b := a + [DoClose(20, 1)];
    var c := b + [DoFinish(20, 7)];
    var d := c + [DoOpen(15, 2, 7)];
    assert d == [DoOpen(10, 1, 7), DoClose(20, 1), DoFinish(20, 7), DoOpen(15, 2, 7)];
    assert a[..0] == [] && b[..1] == a && c[..2] == b && d[..3] == c;
    assert After(a[..0]) == Empty;
    assert After(a) == Activity(map[1 := Connection(7, 10, None)], map[Key(7, 10) := Session(10, None)]);
    assert After(b).sessions == map[Key(7, 10) := Session(10, None)];
    assert After(b).connections == map[1 := Connection(7, 20, Some(20))];
    assert IsOpen(After(b).sessions, 7, Key(7, 10));
    assert After(c).sessions == map[Key(7, 10) := Session(20, Some(20))];
    assert !HasOpen(After(c).sessions, 7);
  }

  // ---- A live connection has a session ----

  /** Every environment something is connected to has an open session. */
  ghost predicate Covered(s: Activity) { forall e :: HasLive(s.connections, e) ==> HasOpen(s.sessions, e) }

  /** A connection that gets no session: none is open, and one opened at this very instant has ended already. */
  predicate Loses(s: Activity, op: Op) {
    op.DoOpen? && op.id !in s.connections && !HasOpen(s.sessions, op.environment) && Key(op.environment, op.at) in s.sessions
  }

  lemma StaysLive(s: Activity, op: Op, e: Id)
    requires !(op.DoOpen? && op.environment == e) && HasLive(Next(s, op).connections, e)
    ensures HasLive(s.connections, e)
  {
    var c :| c in Next(s, op).connections && Next(s, op).connections[c].environment == e && Next(s, op).connections[c].Live();
    assert c in s.connections && s.connections[c].environment == e && s.connections[c].Live();
  }

  lemma BeatKeepsOpen(sessions: map<Key, Session>, environment: Id, at: Time, e: Id, k: Key)
    requires IsOpen(sessions, e, k)
    ensures IsOpen(Beat(sessions, environment, at), e, k)
  {
    assert k in Beat(sessions, environment, at);
  }

  lemma OpenKeepsOpen(sessions: map<Key, Session>, environment: Id, at: Time, e: Id, k: Key)
    requires IsOpen(sessions, e, k)
    ensures IsOpen(OpenSession(sessions, environment, at), e, k)
  {
  }

  lemma OrphansKeepOpen(connections: map<Id, Connection>, sessions: map<Key, Session>, at: Time, e: Id, k: Key)
    requires IsOpen(sessions, e, k) && HasLive(connections, e)
    ensures IsOpen(EndOrphans(connections, sessions, at), e, k)
  {
    assert k in EndOrphans(connections, sessions, at);
  }

  lemma EndKeepsOthers(sessions: map<Key, Session>, environment: Id, at: Time, e: Id, k: Key)
    requires IsOpen(sessions, e, k) && environment != e
    ensures IsOpen(End(sessions, environment, at), e, k)
  {
    assert k in End(sessions, environment, at);
  }

  lemma StaysOpen(s: Activity, op: Op, e: Id)
    requires HasOpen(s.sessions, e) && HasLive(Next(s, op).connections, e)
    ensures HasOpen(Next(s, op).sessions, e)
  {
    if !(op.DoOpen? && op.environment == e) { StaysLive(s, op, e); }
    var k :| IsOpen(s.sessions, e, k);
    match op {
      case DoOpen(at, _, environment) => OpenKeepsOpen(s.sessions, environment, at, e, k);
      case DoTouch(at, id) =>
        if id in s.connections && s.connections[id].Live() { BeatKeepsOpen(s.sessions, s.connections[id].environment, at, e, k); }
      case DoClose(_, _) =>
      case DoFinish(at, environment) => if environment != e { EndKeepsOthers(s.sessions, environment, at, e, k); }
      case DoCleanup(at, stale) => OrphansKeepOpen(Drop(s.connections, stale, at), s.sessions, at, e, k);
      case DoDelete(_, _) =>
    }
    hide IsOpen, HasOpen, HasLive, Beat, End, Drop, EndOrphans, OpenSession;
    assert IsOpen(Next(s, op).sessions, e, k);
  }

  /** A transaction leaves a connected environment without a session exactly when it opens a connection that gets none. */
  lemma CoverIsLostIff(s: Activity, op: Op)
    requires Covered(s)
    ensures Covered(Next(s, op)) <==> !Loses(s, op)
  {
    var t := Next(s, op);
    if Loses(s, op) {
      assert t.connections[op.id].environment == op.environment && t.connections[op.id].Live();
      assert HasLive(t.connections, op.environment) && !HasOpen(t.sessions, op.environment);
    } else {
      forall e | HasLive(t.connections, e) ensures HasOpen(t.sessions, e) {
        if op.DoOpen? && op.environment == e && op.id !in s.connections && !HasOpen(s.sessions, e) {
          assert IsOpen(t.sessions, e, Key(e, op.at));
        } else {
          if !(op.DoOpen? && op.environment == e && op.id !in s.connections) {
            if op.DoOpen? && op.id in s.connections { assert t == s; } else { StaysLive(s, op, e); }
          }
          StaysOpen(s, op, e);
        }
      }
    }
  }

  ghost predicate NoneLost(ops: seq<Op>) { forall i | 0 <= i < |ops| :: !Loses(After(ops[..i]), ops[i]) }

  /** In a run that loses none, a connected environment always has its session. */
  lemma {:induction false} AlwaysCovered(ops: seq<Op>)
    requires NoneLost(ops)
    ensures Covered(After(ops))
  {
    hide Next, Loses, Covered;
    if ops == [] {
      EmptyCovered();
    } else {
      var init := ops[..|ops| - 1];
      assert forall i | 0 <= i < |init| :: init[..i] == ops[..i] && init[i] == ops[i];
      AlwaysCovered(init);
      CoverIsLostIff(After(init), ops[|ops| - 1]);
    }
  }

  lemma EmptyCovered()
    ensures Covered(Empty)
  {
  }

  /** When no two events share an instant none is lost. */
  lemma DistinctTimesLoseNone(ops: seq<Op>)
    requires forall i, j | 0 <= i < j < |ops| :: ops[i].at < ops[j].at
    ensures NoneLost(ops)
  {
    forall i | 0 <= i < |ops| ensures !Loses(After(ops[..i]), ops[i]) {
      if i > 0 {
        AfterRecent(ops[..i], ops[i - 1].at);
        assert ops[i - 1].at < ops[i].at;
      } else {
        assert After(ops[..0]) == Empty;
      }
    }
  }

  /** The loss is real: closed, finished and reconnected within one instant. */
  lemma LossHappens()
    ensures var ops := [DoOpen(10, 1, 7), DoClose(10, 1), DoFinish(10, 7), DoOpen(10, 2, 7)];
            Timely(ops) && HasLive(After(ops).connections, 7) && !HasOpen(After(ops).sessions, 7)
  {
    var a := [DoOpen(10, 1, 7)];
    var b := a + [DoClose(10, 1)];
    var c := b + [DoFinish(10, 7)];
    var d := c + [DoOpen(10, 2, 7)];
    assert d == [DoOpen(10, 1, 7), DoClose(10, 1), DoFinish(10, 7), DoOpen(10, 2, 7)];
    assert a[..0] == [] && b[..1] == a && c[..2] == b && d[..3] == c;
    assert After(a[..0]) == Empty;
    assert After(a) == Activity(map[1 := Connection(7, 10, None)], map[Key(7, 10) := Session(10, None)]);
    assert After(b).sessions == map[Key(7, 10) := Session(10, None)];
    assert After(b).connections == map[1 := Connection(7, 10, Some(10))];
    assert IsOpen(After(b).sessions, 7, Key(7, 10));
    assert After(c).sessions == map[Key(7, 10) := Session(10, Some(10))];
    assert After(d).connections[2] == Connection(7, 10, None);
    assert After(d).sessions == After(c).sessions;
  }

  /** Right after a cleanup an environment has an open session exactly when something is connected to it. */
  lemma CleanupIsExact(s: Activity, stale: set<Id>, at: Time, e: Id)
    requires Covered(s)
    ensures var t := Cleanup(s, stale, at).after; HasOpen(t.sessions, e) <==> HasLive(t.connections, e)
  {
    var t := Cleanup(s, stale, at).after;
    CoverIsLostIff(s, DoCleanup(at, stale));
    if HasOpen(t.sessions, e) {
      var k :| IsOpen(t.sessions, e, k);
    }
  }

  // ---- What each step does ----

  /** A connection opens under a fresh identity, and beats from its start. */
  lemma OpenConnects(s: Activity, id: Id, environment: Id, at: Time)
    ensures var step := Open(s, id, environment, at);
            && (step.out.Ok? <==> id !in s.connections)
            && (step.out.Ok? ==> step.after.connections == s.connections[id := Connection(environment, at, None)])
            && (step.out.Err? ==> step.after == s)
  {
  }

  /** The session a connection opens: one from its instant when the environment has none open and never had one from
      then; otherwise none. */
  lemma OpenCounts(s: Activity, id: Id, environment: Id, at: Time)
    requires id !in s.connections
    ensures var t := Open(s, id, environment, at).after.sessions;
            if (forall k <- s.sessions :: k.environment == environment ==> s.sessions[k].ended.Some? && k.started != at)
            then t == s.sessions[Key(environment, at) := Session(at, None)] else t == s.sessions
  {
    if forall k <- s.sessions :: k.environment == environment ==> s.sessions[k].ended.Some? && k.started != at {
      assert !HasOpen(s.sessions, environment);
    } else {
      var k :| k in s.sessions && k.environment == environment && !(s.sessions[k].ended.Some? && k.started != at);
      assert s.sessions[k].ended.None? ==> IsOpen(s.sessions, environment, k);
      assert k.started == at ==> k == Key(environment, at);
    }
  }

  /** A beat of a live connection is a beat of its environment's open session, and of nothing else. */
  lemma TouchBeats(s: Activity, id: Id, at: Time)
    ensures var t := Touch(s, id, at);
            && t.out == Ok(())
            && (!(id in s.connections && s.connections[id].disconnected.None?) ==> t.after == s)
            && (id in s.connections && s.connections[id].disconnected.None? ==>
                  && t.after.connections == s.connections[id := s.connections[id].(heartbeat := at)]
                  && t.after.sessions.Keys == s.sessions.Keys
                  && forall k <- s.sessions :: t.after.sessions[k] ==
                       if k.environment == s.connections[id].environment && s.sessions[k].ended.None? then Session(at, None) else s.sessions[k])
  {
  }

  /** Closing disconnects at that instant, once; it answers true exactly when nothing is connected to the environment
      afterwards. */
  lemma CloseAnswers(s: Activity, id: Id, at: Time)
    ensures var t := Close(s, id, at);
            && t.out.Ok? && t.after.sessions == s.sessions
            && (id !in s.connections ==> t == Step(s, Ok(false)))
            && (id in s.connections ==>
                  && id in t.after.connections && t.after.connections[id].disconnected.Some?
                  && t.after.connections == s.connections[id := t.after.connections[id]]
                  && (s.connections[id].disconnected.Some? ==> t.after == s)
                  && (s.connections[id].disconnected.None? ==> t.after.connections[id] == Connection(s.connections[id].environment, at, Some(at)))
                  && (t.out.value <==>
                        forall c <- t.after.connections ::
                          t.after.connections[c].environment == s.connections[id].environment ==> t.after.connections[c].disconnected.Some?))
  {
    if id in s.connections {
      var e, after := s.connections[id].environment, Close(s, id, at).after.connections;
      if HasLive(after, e) {
        var c :| c in after && after[c].environment == e && after[c].Live();
      } else {
        forall c | c in after && after[c].environment == e ensures after[c].disconnected.Some? { assert !after[c].Live(); }
      }
    }
  }

  /** Finishing ends the environment's open session at that instant, exactly when nothing is connected; and says whether
      there was one. */
  lemma FinishEnds(s: Activity, environment: Id, at: Time, k: Key)
    ensures var t := Finish(s, environment, at);
            && t.after.connections == s.connections && t.after.sessions.Keys == s.sessions.Keys
            && t.out == Ok(!HasLive(s.connections, environment) && HasOpen(s.sessions, environment))
            && (k in s.sessions ==>
                  t.after.sessions[k] ==
                    if IsOpen(s.sessions, environment, k) && !HasLive(s.connections, environment) then Session(at, Some(at)) else s.sessions[k])
  {
  }

  /** A cleanup disconnects the stale connections and ends what they leave behind, at that instant; and nothing else. */
  lemma CleanupEnds(s: Activity, stale: set<Id>, at: Time, c: Id, k: Key)
    ensures var t := Cleanup(s, stale, at).after;
            && t.connections.Keys == s.connections.Keys && t.sessions.Keys == s.sessions.Keys
            && (c in s.connections ==>
                  t.connections[c] == if c in stale && s.connections[c].disconnected.None? then s.connections[c].(disconnected := Some(at)) else s.connections[c])
            && (k in s.sessions ==>
                  t.sessions[k] == if s.sessions[k].ended.None? && !HasLive(t.connections, k.environment) then Session(at, Some(at)) else s.sessions[k])
  {
  }

  /** Only closed connections are ever deleted. */
  lemma DeleteIsExact(s: Activity, closed: set<Id>, c: Id)
    ensures var t := DeleteClosed(s, closed).after;
            && t.sessions == s.sessions
            && (c in t.connections <==> c in s.connections && !(c in closed && s.connections[c].disconnected.Some?))
            && (c in t.connections ==> t.connections[c] == s.connections[c])
  {
  }

  /** A visit is counted from its connection to its finish: in every run, one more session of exactly that length. */
  lemma VisitIsCounted(ops: seq<Op>, id: Id, environment: Id, t0: Time, t1: Time, t2: Time)
    requires var s := After(ops);
             && id !in s.connections && !HasLive(s.connections, environment) && !HasOpen(s.sessions, environment)
             && Key(environment, t0) !in s.sessions
    ensures After(ops + [DoOpen(t0, id, environment), DoClose(t1, id), DoFinish(t2, environment)]).sessions
            == After(ops).sessions[Key(environment, t0) := Session(t2, Some(t2))]
  {
    var a, b := ops + [DoOpen(t0, id, environment)], ops + [DoOpen(t0, id, environment), DoClose(t1, id)];
    var c := ops + [DoOpen(t0, id, environment), DoClose(t1, id), DoFinish(t2, environment)];
    assert a[..|a| - 1] == ops && b[..|b| - 1] == a && c[..|c| - 1] == b;
    hide After;
    OneVisit(After(ops), id, environment, t0, t1, t2);
    AfterLast(a);
    AfterLast(b);
    AfterLast(c);
  }

  lemma AfterLast(ops: seq<Op>)
    requires ops != []
    ensures After(ops) == Next(After(ops[..|ops| - 1]), ops[|ops| - 1])
  {
  }

  lemma OneVisit(s: Activity, id: Id, environment: Id, t0: Time, t1: Time, t2: Time)
    requires id !in s.connections && !HasLive(s.connections, environment) && !HasOpen(s.sessions, environment)
    requires Key(environment, t0) !in s.sessions
    ensures Next(Next(Next(s, DoOpen(t0, id, environment)), DoClose(t1, id)), DoFinish(t2, environment)).sessions
            == s.sessions[Key(environment, t0) := Session(t2, Some(t2))]
  {
    var a := Next(s, DoOpen(t0, id, environment));
    var b := Next(a, DoClose(t1, id));
    assert a.sessions == s.sessions[Key(environment, t0) := Session(t0, None)];
    assert !HasLive(b.connections, environment) by {
      forall c | c in b.connections && b.connections[c].environment == environment ensures !b.connections[c].Live() {
        if c != id { assert c in s.connections && b.connections[c] == s.connections[c]; }
      }
    }
    var t := End(b.sessions, environment, t2);
    forall k | k in s.sessions ensures t[k] == s.sessions[k] { assert !IsOpen(s.sessions, environment, k); }
  }

  // ---- The repository ----

  class Repository {
    var connections: map<Id, Connection>
    var sessions: map<Key, Session>

    ghost function View(): Activity
      reads this
    {
      Activity(connections, sessions)
    }

    constructor ()
      ensures View() == Empty
    {
      connections, sessions := map[], map[];
    }

    method OpenTerminalConnection(id: Id, environment: Id, at: Time) returns (r: Outcome<()>)
      modifies this
      ensures Step(View(), r) == Open(old(View()), id, environment, at)
    {
      if id in connections { return Err(Constraint); }
      connections := connections[id := Connection(environment, at, None)];
      var usage := Key(environment, at);
      if usage !in sessions && !HasOpen(sessions, environment) {
        sessions := sessions[usage := Session(at, None)];
      }
      return Ok(());
    }

    method TouchTerminalConnection(id: Id, at: Time) returns (r: Outcome<()>)
      modifies this
      ensures Step(View(), r) == Touch(old(View()), id, at)
    {
      if id !in connections || connections[id].disconnected.Some? { return Ok(()); }
      var environment := connections[id].environment;
      connections := connections[id := connections[id].(heartbeat := at)];
      sessions := map k | k in sessions ::
        if k.environment == environment && sessions[k].ended.None? then sessions[k].(heartbeat := at) else sessions[k];
      return Ok(());
    }

    method CloseTerminalConnection(id: Id, at: Time) returns (r: Outcome<bool>)
      modifies this
      ensures Step(View(), r) == Close(old(View()), id, at)
    {
      if id !in connections { return Ok(false); }
      var c := connections[id];
      if c.disconnected.None? {
        connections := connections[id := c.(disconnected := Some(at), heartbeat := at)];
      }
      var remaining := HasLive(connections, c.environment);
      return Ok(!remaining);
    }

    method FinishTerminalUsageSession(environment: Id, at: Time) returns (r: Outcome<bool>)
      modifies this
      ensures Step(View(), r) == Finish(old(View()), environment, at)
    {
      if HasLive(connections, environment) { return Ok(false); }
      var changed := HasOpen(sessions, environment);
      sessions := map k | k in sessions ::
        if k.environment == environment && sessions[k].ended.None? then Session(at, Some(at)) else sessions[k];
      return Ok(changed);
    }

    method CleanupTerminalActivity(stale: set<Id>, at: Time) returns (r: Outcome<()>)
      modifies this
      ensures Step(View(), r) == Cleanup(old(View()), stale, at)
    {
      connections := map c | c in connections ::
        if c in stale && connections[c].disconnected.None? then connections[c].(disconnected := Some(at)) else connections[c];
      sessions := map k | k in sessions ::
        if sessions[k].ended.None? && !HasLive(connections, k.environment) then Session(at, Some(at)) else sessions[k];
      return Ok(());
    }

    /** Row after row: what is closed and old enough goes. */
    method DeleteClosedTerminalConnections(closed: set<Id>) returns (r: Outcome<()>)
      modifies this
      ensures Step(View(), r) == DeleteClosed(old(View()), closed)
    {
      var todo := connections.Keys;
      while todo != {}
        invariant todo <= connections.Keys <= old(connections.Keys) && sessions == old(sessions)
        invariant forall c <- connections :: connections[c] == old(connections)[c]
        invariant forall c <- old(connections) :: c in connections <==> c in todo || !(c in closed && !old(connections)[c].Live())
        decreases |todo|
      {
        var c :| c in todo;
        if connections[c].disconnected.Some? && c in closed { connections := connections - {c}; }
        todo := todo - {c};
      }
      assert connections == DeleteClosed(old(View()), closed).after.connections;
      return Ok(());
    }
  }
}
