// Ownership of a room code and its durable snapshot: one shared row per code,
// updated by any number of instances, one SQL statement at a time
// (backend/internal/roomstore/postgres.go).
module RoomLeases {
  import opened Wrappers
  import opened RoomTypes

  type Instance = nat

  // A live row names the owner; an expired one only keeps the snapshot.
  datatype Row = Row(owner: Instance, expiresAt: int, state: Option<PersistedRoomState>, version: nat)

  type Cell = Option<Row>

  datatype StoreError = CodeReserved | RoomNotFound | OwnedElsewhere(owner: Instance) | StateNotFound

  datatype Reply = Reply(row: Cell, error: Option<StoreError>)

  predicate Live(c: Cell, now: int) {
    c.Some? && c.value.expiresAt > now
  }

  predicate Owns(c: Cell, who: Instance, now: int) {
    Live(c, now) && c.value.owner == who
  }

  // Why an update that needs the live lease touched no row: LookupRoom, which
  // runs when no row was affected, says.
  function Refusal(c: Cell, now: int): StoreError {
    if Live(c, now) then OwnedElsewhere(c.value.owner) else RoomNotFound
  }

  function Reserve(c: Cell, who: Instance, ttl: int, now: int): Reply {
    if Live(c, now) then Reply(c, Some(CodeReserved)) else Reply(Some(Row(who, now + ttl, None, 0)), None)
  }

  // Takes an expired lease over and keeps the snapshot.
  function Claim(c: Cell, who: Instance, ttl: int, now: int): Reply {
    if Live(c, now) then Reply(c, Some(CodeReserved))
    else if c.None? then Reply(Some(Row(who, now + ttl, None, 0)), None)
    else Reply(Some(c.value.(owner := who, expiresAt := now + ttl)), None)
  }

  function Heartbeat(c: Cell, who: Instance, ttl: int, now: int): Reply {
    if Owns(c, who, now) then Reply(Some(c.value.(expiresAt := now + ttl)), None) else Reply(c, Some(Refusal(c, now)))
  }

  function Release(c: Cell, who: Instance, now: int): Reply {
    if Owns(c, who, now) then Reply(Some(c.value.(expiresAt := now)), None) else Reply(c, Some(Refusal(c, now)))
  }

  // A save that is older than what is stored is dropped, and reported as done
  // to the owner.
  function Save(c: Cell, who: Instance, state: PersistedRoomState, now: int): Reply {
    if Owns(c, who, now) && c.value.version <= state.revision
    then Reply(Some(c.value.(state := Some(state), version := state.revision)), None)
    else if Owns(c, who, now) then Reply(c, None)
    else Reply(c, Some(Refusal(c, now)))
  }

  function Load(c: Cell): Result<PersistedRoomState, StoreError> {
    if c.Some? && c.value.state.Some? then Success(c.value.state.value) else Failure(StateNotFound)
  }

  // Deleting and resetting ask for the owner's name, not for a live lease.
  function Delete(c: Cell, who: Instance): Reply {
    Reply(if c.Some? && c.value.owner == who then None else c, None)
  }

  function Reset(c: Cell, who: Instance): Reply {
    Reply(if c.Some? && c.value.owner == who then Some(c.value.(state := None, version := 0)) else c, None)
  }

  // --- runs over one row ---

  datatype Op =
    | ReserveOp(who: Instance)
    | ClaimOp(who: Instance)
    | HeartbeatOp(who: Instance)
    | ReleaseOp(who: Instance)
    | SaveOp(who: Instance, state: PersistedRoomState)
    | DeleteOp(who: Instance)
    | ResetOp(who: Instance)

  datatype Call = Call(now: int, op: Op)

  function Apply(c: Cell, ttl: int, call: Call): Reply {
    match call.op
    case ReserveOp(who) => Reserve(c, who, ttl, call.now)
    case ClaimOp(who) => Claim(c, who, ttl, call.now)
    case HeartbeatOp(who) => Heartbeat(c, who, ttl, call.now)
    case ReleaseOp(who) => Release(c, who, call.now)
    case SaveOp(who, state) => Save(c, who, state, call.now)
    case DeleteOp(who) => Delete(c, who)
    case ResetOp(who) => Reset(c, who)
  }

  function End(c: Cell, ttl: int, calls: seq<Call>): Cell
    decreases |calls|
  {
    if calls == [] then c else End(Apply(c, ttl, calls[0]).row, ttl, calls[1..])
  }

  // The database clock does not run backwards.
  ghost predicate InOrder(start: int, calls: seq<Call>) {
    (forall i :: 0 <= i < |calls| ==> start <= calls[i].now)
    && forall i, j :: 0 <= i < j < |calls| ==> calls[i].now <= calls[j].now
  }

  // The stored version is the stored snapshot's revision.
  ghost predicate Consistent(c: Cell) {
    c.Some? ==> if c.value.state.Some? then c.value.version == c.value.state.value.revision else c.value.version == 0
  }

  lemma {:induction false} StaysConsistent(c: Cell, ttl: int, calls: seq<Call>)
    requires Consistent(c)
    ensures Consistent(End(c, ttl, calls))
    decreases |calls|
  {
    if calls != [] {
      StaysConsistent(Apply(c, ttl, calls[0]).row, ttl, calls[1..]);
    }
  }

  lemma {:induction false} EndConcat(c: Cell, ttl: int, a: seq<Call>, b: seq<Call>)
    ensures End(c, ttl, a + b) == End(End(c, ttl, a), ttl, b)
    decreases |a|
  {
    if a == [] {
      assert a + b == b;
    } else {
      assert (a + b)[1..] == a[1..] + b;
      EndConcat(Apply(c, ttl, a[0]).row, ttl, a[1..], b);
    }
  }

  // --- who owns the code ---

  // The owner's name changes exactly when someone else reserves or claims a row
  // that is free or expired, or the owner deletes it.
  lemma OwnerChanges(c: Cell, ttl: int, call: Call)
    requires c.Some?
    ensures var d := Apply(c, ttl, call).row;
            (d.None? || d.value.owner != c.value.owner)
            <==> (call.op == DeleteOp(c.value.owner)
                  || ((call.op.ReserveOp? || call.op.ClaimOp?) && !Live(c, call.now) && call.op.who != c.value.owner))
  {
  }

  // Nobody but the owner gives a lease up: until it expires, whatever anyone
  // else does, the owner owns the code. (A lease never runs past `ttl` from now,
  // so a heartbeat does not shorten it.)
  lemma {:induction false} LeaseHolds(c: Cell, ttl: int, calls: seq<Call>, owner: Instance, until: int)
    requires c.Some? && c.value.owner == owner && c.value.expiresAt >= until
    requires forall i :: 0 <= i < |calls| ==>
               calls[i].now < until <= calls[i].now + ttl
               && calls[i].op != ReleaseOp(owner) && calls[i].op != DeleteOp(owner)
    ensures var d := End(c, ttl, calls);
            d.Some? && d.value.owner == owner && d.value.expiresAt >= until
    decreases |calls|
  {
    if calls != [] {
      LeaseHolds(Apply(c, ttl, calls[0]).row, ttl, calls[1..], owner, until);
    }
  }

  // --- fencing ---

  function NotBy(calls: seq<Call>, who: Instance): seq<Call> {
    if calls == [] then []
    else if calls[0].op.who == who then NotBy(calls[1..], who)
    else [calls[0]] + NotBy(calls[1..], who)
  }

  ghost predicate Acquires(op: Op) {
    op.ReserveOp? || op.ClaimOp?
  }

  // An instance that does not own the row has no effect on it until it reserves
  // or claims again: the run ends as if its calls had not been made, and each of
  // them that needs the lease is refused.
  lemma {:induction false} Fenced(c: Cell, ttl: int, calls: seq<Call>, who: Instance)
    requires c.Some? ==> c.value.owner != who
    requires forall i :: 0 <= i < |calls| && Acquires(calls[i].op) ==> calls[i].op.who != who
    ensures End(c, ttl, calls) == End(c, ttl, NotBy(calls, who))
    ensures End(c, ttl, calls).Some? ==> End(c, ttl, calls).value.owner != who
    decreases |calls|
  {
    if calls != [] {
      var d := Apply(c, ttl, calls[0]).row;
      Fenced(d, ttl, calls[1..], who);
      if calls[0].op.who != who {
        assert NotBy(calls, who)[1..] == NotBy(calls[1..], who);
      }
    }
  }

  lemma FencedIsTold(c: Cell, who: Instance, state: PersistedRoomState, ttl: int, now: int)
    requires !Owns(c, who, now)
    ensures Save(c, who, state, now).error.Some? && Heartbeat(c, who, ttl, now).error.Some? && Release(c, who, now).error.Some?
    ensures Save(c, who, state, now).error.value.OwnedElsewhere? <==> Live(c, now)
    ensures Save(c, who, state, now).error.value != OwnedElsewhere(who)
  {
  }

  // --- what is stored ---

  // A save reported as done means the lease was live and the row holds that
  // revision or a later one; it holds that very snapshot exactly when nothing
  // later was there.
  lemma SavedMeansStored(c: Cell, who: Instance, state: PersistedRoomState, now: int)
    requires Consistent(c)
    ensures var r := Save(c, who, state, now);
            (r.error.None? <==> Owns(c, who, now))
            && (r.error.None? ==>
                  r.row.value.version >= state.revision
                  && ((r.row.value.state == Some(state) && r.row.value.version == state.revision)
                      <==> c.value.version <= state.revision))
  {
  }

  ghost predicate Wipes(op: Op) {
    op.ReserveOp? || op.ResetOp? || op.DeleteOp?
  }

  // Between wipes the stored revision never decreases and a snapshot is never lost.
  lemma {:induction false} RevisionsGrow(c: Cell, ttl: int, calls: seq<Call>)
    requires c.Some? && forall i :: 0 <= i < |calls| ==> !Wipes(calls[i].op)
    ensures var d := End(c, ttl, calls);
            d.Some? && d.value.version >= c.value.version && (c.value.state.Some? ==> d.value.state.Some?)
    decreases |calls|
  {
    if calls != [] {
      RevisionsGrow(Apply(c, ttl, calls[0]).row, ttl, calls[1..]);
    }
  }

  // A wipe is the owner's, live lease or not. The snapshot goes; a reset leaves the
  // lease as it was, a deletion ends it.
  lemma WipesAreTheOwners(c: Cell, who: Instance, other: Instance, now: int)
    ensures var reset, deleted := Reset(c, who).row, Delete(c, who).row;
            (Load(reset).Success? <==> Load(c).Success? && c.value.owner != who)
            && (Owns(reset, other, now) <==> Owns(c, other, now))
            && (deleted.Some? <==> c.Some? && c.value.owner != who)
            && (c.Some? && c.value.owner != who ==> reset == c && deleted == c)
  {
  }

  // What is stored at the end was there to begin with or was saved on the way.
  lemma {:induction false} StoredWasSaved(c: Cell, ttl: int, calls: seq<Call>)
    ensures var d := End(c, ttl, calls);
            d.Some? && d.value.state.Some? ==>
              (c.Some? && d.value.state == c.value.state)
              || exists i :: 0 <= i < |calls| && calls[i].op.SaveOp? && d.value.state == Some(calls[i].op.state)
    decreases |calls|
  {
    if calls != [] {
      StoredWasSaved(Apply(c, ttl, calls[0]).row, ttl, calls[1..]);
      var d := End(c, ttl, calls);
      if i :| 0 <= i < |calls[1..]| && calls[1..][i].op.SaveOp? && d.Some? && d.value.state == Some(calls[1..][i].op.state) {
        assert calls[i + 1] == calls[1..][i];
      }
    }
  }

  // A snapshot acknowledged by a save is still there, or a later one is, however
  // ownership moves, until the row is wiped.
  lemma AcknowledgedSurvives(c: Cell, ttl: int, who: Instance, state: PersistedRoomState, now: int, calls: seq<Call>)
    requires Consistent(c) && Save(c, who, state, now).error.None?
    requires forall i :: 0 <= i < |calls| ==> !Wipes(calls[i].op)
    ensures var d := End(Save(c, who, state, now).row, ttl, calls);
            d.Some? && d.value.state.Some? && d.value.state.value.revision >= state.revision
  {
    var b := Save(c, who, state, now).row;
    RevisionsGrow(b, ttl, calls);
    StaysConsistent(b, ttl, calls);
  }

  // --- the second statement ---

  // An update that touched no row is followed by a lookup that says why; others may
  // run in between. The update is at `now`, the lookup at `later`.
  function SaveSplit(c: Cell, ttl: int, who: Instance, state: PersistedRoomState, now: int, between: seq<Call>, later: int): Reply {
    if Owns(c, who, now) && c.value.version <= state.revision then Save(c, who, state, now)
    else
      var d := End(c, ttl, between);
      Reply(d, if Owns(d, who, later) then None else Some(Refusal(d, later)))
  }

  function HeartbeatSplit(c: Cell, ttl: int, who: Instance, now: int, between: seq<Call>, later: int): Reply {
    if Owns(c, who, now) then Heartbeat(c, who, ttl, now) else Reply(End(c, ttl, between), Some(Refusal(End(c, ttl, between), later)))
  }

  function ReleaseSplit(c: Cell, ttl: int, who: Instance, now: int, between: seq<Call>, later: int): Reply {
    if Owns(c, who, now) then Release(c, who, now) else Reply(End(c, ttl, between), Some(Refusal(End(c, ttl, between), later)))
  }

  ghost predicate AcquiredBy(calls: seq<Call>, who: Instance) {
    exists i :: 0 <= i < |calls| && Acquires(calls[i].op) && calls[i].op.who == who
  }

  lemma {:induction false} NotOwnedWithoutAcquiring(c: Cell, ttl: int, calls: seq<Call>, who: Instance, now: int, later: int)
    requires !Owns(c, who, now) && InOrder(now, calls) && now <= later && forall i :: 0 <= i < |calls| ==> calls[i].now <= later
    requires !AcquiredBy(calls, who)
    ensures !Owns(End(c, ttl, calls), who, later)
    decreases |calls|
  {
    if calls != [] {
      assert !(Acquires(calls[0].op) && calls[0].op.who == who);
      assert forall i :: 0 <= i < |calls[1..]| ==> calls[1..][i] == calls[i + 1];
      NotOwnedWithoutAcquiring(Apply(c, ttl, calls[0]).row, ttl, calls[1..], who, calls[0].now, later);
    }
  }

  // A save answers nil exactly when the update stored the snapshot or the lookup
  // finds the lease its own. Then, unless the instance has itself claimed the code
  // anew in between, the lease was its own at the update as well, and the row held
  // that revision or a later one.
  lemma NilSave(c: Cell, ttl: int, who: Instance, state: PersistedRoomState, now: int, between: seq<Call>, later: int)
    requires InOrder(now, between) && now <= later && forall i :: 0 <= i < |between| ==> between[i].now <= later
    ensures var r := SaveSplit(c, ttl, who, state, now, between, later);
            (r.error.None? <==> (Owns(c, who, now) && c.value.version <= state.revision) || Owns(End(c, ttl, between), who, later))
            && (r.error.None? && !AcquiredBy(between, who) ==>
                  Owns(c, who, now) && Save(c, who, state, now).error.None? && Save(c, who, state, now).row.value.version >= state.revision)
  {
    if !Owns(c, who, now) && !AcquiredBy(between, who) {
      NotOwnedWithoutAcquiring(c, ttl, between, who, now, later);
    }
  }

  // If it has, nil says nothing: a save over a lapsed lease stores nothing, and a
  // claim of the same instance makes the lookup find its own name.
  lemma NilWithoutStoring(c: Cell, ttl: int, state: PersistedRoomState, now: int)
    requires c.Some? && !Live(c, now) && c.value.version < state.revision && 0 < ttl
    ensures var who := c.value.owner;
            var r := SaveSplit(c, ttl, who, state, now, [Call(now, ClaimOp(who))], now);
            r.error.None? && r.row.value.version < state.revision && r.row.value.state == c.value.state
  {
    var call := Call(now, ClaimOp(c.value.owner));
    var d := Apply(c, ttl, call).row;
    assert [call][1..] == [] && End(d, ttl, []) == d;
  }

  // A heartbeat and a release are refused exactly when the lease was not the
  // instance's own at the update, whatever runs before the lookup; and the refusal
  // names the instance itself only if it has claimed the code anew by then.
  lemma RefusedBeats(c: Cell, ttl: int, who: Instance, now: int, between: seq<Call>, later: int)
    requires InOrder(now, between) && now <= later && forall i :: 0 <= i < |between| ==> between[i].now <= later
    ensures var h, r := HeartbeatSplit(c, ttl, who, now, between, later), ReleaseSplit(c, ttl, who, now, between, later);
            (h.error.None? <==> Owns(c, who, now)) && (r.error.None? <==> Owns(c, who, now))
            && (h.error == Some(OwnedElsewhere(who)) || r.error == Some(OwnedElsewhere(who)) ==> AcquiredBy(between, who))
  {
    if !Owns(c, who, now) && !AcquiredBy(between, who) {
      NotOwnedWithoutAcquiring(c, ttl, between, who, now, later);
    }
  }

  // --- the store as the program calls it ---

  function CellIn(rows: map<string, Row>, code: string): Cell {
    if code in rows then Some(rows[code]) else None
  }

  class RoomStore {
    var rows: map<string, Row>

    constructor ()
      ensures rows == map[]
    {
      rows := map[];
    }

    function Cell(code: string): Cell
      reads this
    {
      CellIn(rows, code)
    }

    // One row is written or removed, all others stay.
    method Put(code: string, row: Row)
      modifies this
      ensures Cell(code) == Some(row) && forall other :: other != code ==> CellIn(rows, other) == CellIn(old(rows), other)
    {
      rows := rows[code := row];
    }

    method LookupRoom(code: string, now: int) returns (r: Result<Instance, StoreError>)
      ensures r == if Live(Cell(code), now) then Success(rows[code].owner) else Failure(RoomNotFound)
    {
      if code in rows && rows[code].expiresAt > now {
        return Success(rows[code].owner);
      }
      return Failure(RoomNotFound);
    }

    method ReserveRoom(code: string, who: Instance, ttl: int, now: int) returns (error: Option<StoreError>)
      modifies this
      ensures Reply(Cell(code), error) == Reserve(old(Cell(code)), who, ttl, now)
      ensures error.Some? ==> rows == old(rows)
      ensures forall other :: other != code ==> CellIn(rows, other) == CellIn(old(rows), other)
    {
      if code in rows && rows[code].expiresAt > now {
        return Some(CodeReserved);
      }
      Put(code, Row(who, now + ttl, None, 0));
      return None;
    }

    method ClaimRoom(code: string, who: Instance, ttl: int, now: int) returns (error: Option<StoreError>)
      modifies this
      ensures Reply(Cell(code), error) == Claim(old(Cell(code)), who, ttl, now)
      ensures forall other :: other != code ==> CellIn(rows, other) == CellIn(old(rows), other)
    {
      if code !in rows {
        Put(code, Row(who, now + ttl, None, 0));
        return None;
      }
      if rows[code].expiresAt > now {
        return Some(CodeReserved);
      }
      Put(code, rows[code].(owner := who, expiresAt := now + ttl));
      return None;
    }

    // Nobody's row was updated: look up why.
    method Refused(code: string, now: int) returns (error: StoreError)
      ensures error == Refusal(Cell(code), now)
    {
      var record := LookupRoom(code, now);
      if record.Failure? {
        return record.error;
      }
      return OwnedElsewhere(record.value);
    }

    method HeartbeatRoom(code: string, who: Instance, ttl: int, now: int) returns (error: Option<StoreError>)
      modifies this
      ensures Reply(Cell(code), error) == Heartbeat(old(Cell(code)), who, ttl, now)
      ensures forall other :: other != code ==> CellIn(rows, other) == CellIn(old(rows), other)
    {
      if code in rows && rows[code].owner == who && rows[code].expiresAt > now {
        Put(code, rows[code].(expiresAt := now + ttl));
        return None;
      }
      var why := Refused(code, now);
      return Some(why);
    }

    method ReleaseRoom(code: string, who: Instance, now: int) returns (error: Option<StoreError>)
      modifies this
      ensures Reply(Cell(code), error) == Release(old(Cell(code)), who, now)
      ensures forall other :: other != code ==> CellIn(rows, other) == CellIn(old(rows), other)
    {
      if code in rows && rows[code].owner == who && rows[code].expiresAt > now {
        Put(code, rows[code].(expiresAt := now));
        return None;
      }
      var why := Refused(code, now);
      return Some(why);
    }

    method SaveRoomState(who: Instance, state: PersistedRoomState, now: int) returns (error: Option<StoreError>)
      modifies this
      ensures Reply(Cell(state.code), error) == Save(old(Cell(state.code)), who, state, now)
      ensures forall other :: other != state.code ==> CellIn(rows, other) == CellIn(old(rows), other)
    {
      var code := state.code;
      if code in rows && rows[code].owner == who && rows[code].expiresAt > now && rows[code].version <= state.revision {
        Put(code, rows[code].(state := Some(state), version := state.revision));
        return None;
      }
      var record := LookupRoom(code, now);
      if record.Failure? {
        return Some(record.error);
      }
      if record.value != who {
        return Some(OwnedElsewhere(record.value));
      }
      return None;
    }

    method LoadRoomState(code: string) returns (r: Result<PersistedRoomState, StoreError>)
      ensures r == Load(Cell(code))
    {
      if code in rows && rows[code].state.Some? {
        return Success(rows[code].state.value);
      }
      return Failure(StateNotFound);
    }

    method DeleteRoomState(code: string, who: Instance)
      modifies this
      ensures Reply(Cell(code), None) == Delete(old(Cell(code)), who)
      ensures forall other :: other != code ==> CellIn(rows, other) == CellIn(old(rows), other)
    {
      if code in rows && rows[code].owner == who {
        rows := rows - {code};
      }
    }

    method ResetRoomState(code: string, who: Instance)
      modifies this
      ensures Reply(Cell(code), None) == Reset(old(Cell(code)), who)
      ensures forall other :: other != code ==> CellIn(rows, other) == CellIn(old(rows), other)
    {
      if code in rows && rows[code].owner == who {
        Put(code, rows[code].(state := None, version := 0));
      }
    }
  }
}
