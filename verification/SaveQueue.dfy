// The background save queue (enqueueRoomState, nextPendingRoomState,
// runStatePersistence and flushPendingRoomStates in
// backend/internal/realtime/manager.go).
module SaveQueue {
  import opened Wrappers
  import opened RoomTypes
  import opened RoomLeases

  type Pending = map<string, PersistedRoomState>

  // One snapshot per room waits: the newest.
  function Enqueue(pending: Pending, state: PersistedRoomState): Pending {
    if state.code in pending && pending[state.code].revision >= state.revision then pending
    else pending[state.code := state]
  }

  // The queue of one instance, the snapshots its writers have in hand, the rooms it
  // has in memory, and the shared rows.
  datatype Queue = Queue(
    me: Instance, pending: Pending, inHand: multiset<PersistedRoomState>, local: set<string>, rows: map<string, Row>)

  datatype Event =
    // A room comes into memory, or leaves it: revoked, evicted or removed.
    | Opened(code: string)
    | Revoked(code: string)
    // A room hands its snapshot on.
    | Enqueued(state: PersistedRoomState)
    // The worker, or a flush running beside it, takes a snapshot off the queue.
    | Taken(code: string)
    // A writer's save reaches the store: done, or refused and still in hand.
    | Tried(state: PersistedRoomState, now: int)
    // A save that fails on the way, whether or not it reached the store.
    | Failed(state: PersistedRoomState, now: int, reached: bool)
    // After an error: the worker puts the snapshot back if the room is still local,
    // a flush always does.
    | PutBack(state: PersistedRoomState, flushing: bool)
    // Anything else done to a row: by other instances, by a request's own save, by
    // heartbeats.
    | Elsewhere(code: string, ttl: int, call: Call)

  ghost predicate Possible(q: Queue, e: Event) {
    match e
    case Taken(code) => code in q.pending
    case Tried(state, _) => state in q.inHand
    case Failed(state, _, _) => state in q.inHand
    case PutBack(state, _) => state in q.inHand
    case _ => true
  }

  function Put(rows: map<string, Row>, code: string, c: Cell): map<string, Row> {
    if c.Some? then rows[code := c.value] else rows - {code}
  }

  function Step(q: Queue, e: Event): Queue {
    match e
    case Opened(code) => q.(local := q.local + {code})
    case Revoked(code) => q.(local := q.local - {code}, pending := q.pending - {code})
    case Enqueued(state) => q.(pending := Enqueue(q.pending, state))
    case Taken(code) =>
      if code in q.pending
      then q.(pending := q.pending - {code}, inHand := q.inHand + multiset{q.pending[code]})
      else q
    case Tried(state, now) =>
      var r := Save(CellIn(q.rows, state.code), q.me, state, now);
      if r.error.None? then q.(inHand := q.inHand - multiset{state}, rows := Put(q.rows, state.code, r.row)) else q
    case Failed(state, now, reached) =>
      if reached then q.(rows := Put(q.rows, state.code, Save(CellIn(q.rows, state.code), q.me, state, now).row)) else q
    case PutBack(state, flushing) =>
      q.(inHand := q.inHand - multiset{state},
         pending := if flushing || state.code in q.local then Enqueue(q.pending, state) else q.pending)
    case Elsewhere(code, ttl, call) => q.(rows := Put(q.rows, code, Apply(CellIn(q.rows, code), ttl, call).row))
  }

  ghost predicate Run(q: Queue, es: seq<Event>)
    decreases |es|
  {
    es == [] || (Possible(q, es[0]) && Run(Step(q, es[0]), es[1..]))
  }

  function Finish(q: Queue, es: seq<Event>): Queue
    decreases |es|
  {
    if es == [] then q else Finish(Step(q, es[0]), es[1..])
  }

  // The row holds this revision or a later one.
  ghost predicate Stored(rows: map<string, Row>, code: string, revision: nat) {
    code in rows && rows[code].version >= revision
  }

  // The revision, or a later one of the same room, is stored, waiting, or in a
  // writer's hand.
  ghost predicate Safe(q: Queue, code: string, revision: nat) {
    Stored(q.rows, code, revision)
    || (code in q.pending && q.pending[code].revision >= revision)
    || exists s :: s in q.inHand && s.code == code && s.revision >= revision
  }

  // Every pending snapshot waits under its own room.
  ghost predicate Filed(q: Queue) {
    forall code :: code in q.pending ==> q.pending[code].code == code
  }

  // The room is not taken from memory and nobody wipes its row.
  ghost predicate LeavesAlone(e: Event, code: string) {
    e != Revoked(code) && !(e.Elsewhere? && e.code == code && Wipes(e.call.op))
  }

  ghost predicate StaysLocal(es: seq<Event>, code: string) {
    forall i :: 0 <= i < |es| ==> LeavesAlone(es[i], code)
  }

  lemma StepFiled(q: Queue, e: Event)
    requires Filed(q)
    ensures Filed(Step(q, e))
  {
    hide Save, Apply, Put;
  }

  // What waits is never replaced by something older.
  lemma StillWaiting(pending: Pending, state: PersistedRoomState, code: string, revision: nat)
    requires code in pending && pending[code].revision >= revision
    ensures code in Enqueue(pending, state) && Enqueue(pending, state)[code].revision >= revision
  {
  }

  lemma NewestWaits(pending: Pending, s: PersistedRoomState)
    ensures s.code in Enqueue(pending, s) && Enqueue(pending, s)[s.code].revision >= s.revision
  {
  }

  lemma PutElsewhere(rows: map<string, Row>, code: string, c: Cell, other: string)
    ensures CellIn(Put(rows, code, c), other) == if other == code then c else CellIn(rows, other)
  {
  }

  lemma SaveGrows(c: Cell, who: Instance, state: PersistedRoomState, now: int)
    requires c.Some?
    ensures var d := Save(c, who, state, now).row; d.Some? && d.value.version >= c.value.version
  {
  }

  lemma CallGrows(c: Cell, ttl: int, call: Call)
    requires c.Some? && !Wipes(call.op)
    ensures var d := Apply(c, ttl, call).row; d.Some? && d.value.version >= c.value.version
  {
  }

  lemma StaysStored(q: Queue, e: Event, code: string, revision: nat)
    requires Stored(q.rows, code, revision) && LeavesAlone(e, code)
    ensures Stored(Step(q, e).rows, code, revision)
  {
    hide Save, Apply, Put, Wipes;
    var c := CellIn(q.rows, code);
    match e
    case Tried(state, now) =>
      PutElsewhere(q.rows, state.code, Save(CellIn(q.rows, state.code), q.me, state, now).row, code);
      SaveGrows(c, q.me, state, now);
    case Failed(state, now, _) =>
      PutElsewhere(q.rows, state.code, Save(CellIn(q.rows, state.code), q.me, state, now).row, code);
      SaveGrows(c, q.me, state, now);
    case Elsewhere(other, ttl, call) =>
      PutElsewhere(q.rows, other, Apply(CellIn(q.rows, other), ttl, call).row, code);
      if other == code {
        CallGrows(c, ttl, call);
      }
    case _ =>
  }

  lemma WaitingIsSafe(q: Queue, e: Event, code: string, revision: nat)
    requires Possible(q, e) && Filed(q) && code in q.pending && q.pending[code].revision >= revision && LeavesAlone(e, code)
    ensures Safe(Step(q, e), code, revision)
  {
    hide Save, Apply, Put, Wipes;
    if e.Taken? && e.code == code {
      assert q.pending[code] in Step(q, e).inHand;
    } else if e.Enqueued? || e.PutBack? {
      StillWaiting(q.pending, e.state, code, revision);
    }
  }

  // A save that succeeds leaves that revision or a later one in the row.
  lemma DoneIsStored(q: Queue, s: PersistedRoomState, now: int)
    requires Save(CellIn(q.rows, s.code), q.me, s, now).error.None?
    ensures Stored(Step(q, Tried(s, now)).rows, s.code, s.revision)
  {
  }

  lemma InHandIsSafe(q: Queue, e: Event, s: PersistedRoomState, revision: nat)
    requires Possible(q, e) && s in q.inHand && s.revision >= revision && LeavesAlone(e, s.code) && s.code in q.local
    ensures Safe(Step(q, e), s.code, revision)
  {
    hide Enqueue, Save, Apply, Put, Wipes;
    if e.PutBack? && e.state == s {
      NewestWaits(q.pending, s);
    } else if e.Tried? && e.state == s && Save(CellIn(q.rows, s.code), q.me, s, e.now).error.None? {
      DoneIsStored(q, s, e.now);
    } else {
      assert s in Step(q, e).inHand;
    }
  }

  lemma StepSafe(q: Queue, e: Event, code: string, revision: nat)
    requires Filed(q) && Possible(q, e) && Safe(q, code, revision) && LeavesAlone(e, code) && code in q.local
    ensures Safe(Step(q, e), code, revision) && code in Step(q, e).local
  {
    hide Enqueue, Filed, Stored, Save, Apply, Put;
    if Stored(q.rows, code, revision) {
      StaysStored(q, e, code, revision);
    } else if code in q.pending && q.pending[code].revision >= revision {
      WaitingIsSafe(q, e, code, revision);
    } else {
      var s :| s in q.inHand && s.code == code && s.revision >= revision;
      InHandIsSafe(q, e, s, revision);
    }
  }

  lemma {:induction false} RunSafe(q: Queue, es: seq<Event>, code: string, revision: nat)
    requires Filed(q) && Run(q, es) && StaysLocal(es, code) && Safe(q, code, revision) && code in q.local
    ensures Filed(Finish(q, es)) && Safe(Finish(q, es), code, revision)
    decreases |es|
  {
    hide Filed, Safe, LeavesAlone, Step, Possible;
    if es != [] {
      StepSafe(q, es[0], code, revision);
      StepFiled(q, es[0]);
      assert forall i :: 0 <= i < |es[1..]| ==> es[1..][i] == es[i + 1];
      RunSafe(Step(q, es[0]), es[1..], code, revision);
    }
  }

  lemma {:induction false} RunFiled(q: Queue, es: seq<Event>)
    requires Filed(q)
    ensures Filed(Finish(q, es))
    decreases |es|
  {
    hide Filed, Step;
    if es != [] {
      StepFiled(q, es[0]);
      RunFiled(Step(q, es[0]), es[1..]);
    }
  }

  // Nothing is lost: whatever saves fail or are refused and whoever else writes to
  // the rows, every revision enqueued for a room is stored, waiting or in hand, or
  // a later one is, as long as the room stays in memory and its row is not wiped.
  // When nothing waits and nobody is writing, the row has it.
  lemma NothingLost(start: Queue, before: seq<Event>, state: PersistedRoomState, after: seq<Event>)
    requires start.pending == map[] && Run(start, before)
    requires var q := Finish(start, before);
             state.code in q.local && Run(Step(q, Enqueued(state)), after) && StaysLocal(after, state.code)
    ensures var z := Finish(Step(Finish(start, before), Enqueued(state)), after);
            Safe(z, state.code, state.revision)
            && (state.code !in z.pending && (forall s :: s in z.inHand ==> s.code != state.code) ==>
                  Stored(z.rows, state.code, state.revision))
  {
    hide Stored, Run;
    RunFiled(start, before);
    var q := Finish(start, before);
    StepFiled(q, Enqueued(state));
    NewestWaits(q.pending, state);
    RunSafe(Step(q, Enqueued(state)), after, state.code, state.revision);
  }
}
