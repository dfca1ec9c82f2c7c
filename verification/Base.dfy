/** Vocabulary shared by every table: row identities, instants, optional columns,
    and the outcome of one transaction. */
module Base {

  /** Row identities are opaque: they are compared, and ordered only to break ties in a queue. */
  type Id = nat

  type Time = int

  datatype Option<+T> = None | Some(value: T)

  datatype Error =
    | NotFound
    | Invalid
    | InvalidState
    | Conflict
    | LeaseLost
    | RunActive
    | Constraint
    | Busy
    | TurnLost
    | SnapshotCurrent
    | NotIdle
    | Unavailable

  datatype Outcome<+T> = Ok(value: T) | Err(error: Error)

  /** A row's place in a queue: ORDER BY due time, creation time, key. */
  datatype Place = Place(due: Time, created: Time, key: Id) {
    predicate Before(other: Place) {
      || due < other.due
      || (due == other.due && created < other.created)
      || (due == other.due && created == other.created && key < other.key)
    }
  }

  /** Which of the queued rows `ORDER BY ... LIMIT 1` returns. */
  predicate IsFirst(queue: map<Id, Place>, k: Id) {
    k in queue && forall j <- queue :: j != k ==> queue[k].Before(queue[j])
  }

  /** A nonempty queue keyed by row identity always has exactly one first row. */
  lemma {:induction false} FirstExists(queue: map<Id, Place>)
    requires queue != map[]
    requires forall k <- queue :: queue[k].key == k
    ensures exists k :: IsFirst(queue, k)
    decreases |queue|
  {
    var k :| k in queue;
    var rest := queue - {k};
    if rest == map[] {
      forall j | j in queue ensures j == k {
        assert j != k ==> j in rest;
      }
      assert IsFirst(queue, k);
    } else {
      assert |rest.Keys| < |queue.Keys| by { assert rest.Keys == queue.Keys - {k}; }
      FirstExists(rest);
      var m :| IsFirst(rest, m);
      var first := if queue[k].Before(queue[m]) then k else m;
      forall j | j in queue && j != first ensures queue[first].Before(queue[j]) {
        if j != k { assert j in rest; }
      }
      assert IsFirst(queue, first);
    }
  }
}
