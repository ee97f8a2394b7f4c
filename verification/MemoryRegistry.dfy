// The registry and the state store used without a database
// (backend/internal/realtime/registry.go and state.go).
module MemoryRegistry {
  import opened Wrappers
  import opened RoomTypes
  import opened RoomLeases

  datatype Lease = Lease(owner: Instance, expiresAt: int)

  // A record of the registry and a row of the database say the same to anyone
  // who asks at this moment or later: expired entries do not count.
  ghost predicate Agrees(lease: Option<Lease>, c: Cell, now: int) {
    (Live(c, now) <==> lease.Some? && lease.value.expiresAt > now)
    && (Live(c, now) ==> lease.value == Lease(c.value.owner, c.value.expiresAt))
  }

  lemma AgreesLater(lease: Option<Lease>, c: Cell, now: int, later: int)
    requires Agrees(lease, c, now) && now <= later
    ensures Agrees(lease, c, later)
  {
  }

  // --- runs ---

  datatype Answer = Answer(entry: Option<Lease>, error: Option<StoreError>)

  // A call that changes leases, or a lookup.
  datatype Request = Do(call: Call) | Lookup(now: int)

  predicate Expired(entry: Option<Lease>, now: int) {
    entry.Some? && entry.value.expiresAt <= now
  }

  function Respond(entry: Option<Lease>, ttl: int, call: Call): Answer {
    match call.op
    case HeartbeatOp(who) =>
      if entry.None? || Expired(entry, call.now) then Answer(entry, Some(RoomNotFound))
      else if entry.value.owner != who then Answer(entry, Some(OwnedElsewhere(entry.value.owner)))
      else Answer(Some(Lease(who, call.now + ttl)), None)
    case ReleaseOp(who) =>
      if entry.None? then Answer(entry, Some(RoomNotFound))
      else if entry.value.owner != who then Answer(entry, Some(OwnedElsewhere(entry.value.owner)))
      else Answer(Some(Lease(who, call.now)), None)
    case _ =>
      // Reserving and claiming are the same here.
      if entry.Some? && !Expired(entry, call.now) then Answer(entry, Some(CodeReserved))
      else Answer(Some(Lease(call.op.who, call.now + ttl)), None)
  }

  predicate OfRegistry(op: Op) {
    op.ReserveOp? || op.ClaimOp? || op.HeartbeatOp? || op.ReleaseOp?
  }

  function When(r: Request): int {
    if r.Do? then r.call.now else r.now
  }

  function EntryAfter(entry: Option<Lease>, ttl: int, r: Request): Option<Lease> {
    match r
    case Do(call) => Respond(entry, ttl, call).entry
    case Lookup(now) => if Expired(entry, now) then None else entry
  }

  function RowAfter(c: Cell, ttl: int, r: Request): Cell {
    if r.Do? then Apply(c, ttl, r.call).row else c
  }

  // Every request of the run is answered as the database answers it, except a
  // release of a record that has expired.
  ghost predicate SameAnswers(entry: Option<Lease>, c: Cell, ttl: int, rs: seq<Request>)
    decreases |rs|
  {
    rs == []
    || (var r := rs[0];
        (r.Do? ==> (Respond(entry, ttl, r.call).error == Apply(c, ttl, r.call).error
                    <==> !(r.call.op.ReleaseOp? && Expired(entry, r.call.now))))
        && (r.Lookup? ==> ((entry.Some? && !Expired(entry, r.now)) <==> Live(c, r.now)))
        && (r.Lookup? && Live(c, r.now) ==> entry.value.owner == c.value.owner)
        && SameAnswers(EntryAfter(entry, ttl, r), RowAfter(c, ttl, r), ttl, rs[1..]))
  }

  ghost predicate RequestsInOrder(start: int, rs: seq<Request>) {
    (forall i :: 0 <= i < |rs| ==> start <= When(rs[i]))
    && forall i, j :: 0 <= i < j < |rs| ==> When(rs[i]) <= When(rs[j])
  }

  lemma StepAgrees(entry: Option<Lease>, c: Cell, ttl: int, r: Request)
    requires Agrees(entry, c, When(r)) && (r.Do? ==> OfRegistry(r.call.op))
    ensures Agrees(EntryAfter(entry, ttl, r), RowAfter(c, ttl, r), When(r))
    ensures r.Do? ==> (Respond(entry, ttl, r.call).error == Apply(c, ttl, r.call).error
                       <==> !(r.call.op.ReleaseOp? && Expired(entry, r.call.now)))
  {
  }

  // Nobody can tell the registry from the database by calling it, however long and
  // in whatever order, but for the answer to a release that comes too late.
  lemma {:induction false} RunsAgree(entry: Option<Lease>, c: Cell, ttl: int, start: int, rs: seq<Request>)
    requires Agrees(entry, c, start) && RequestsInOrder(start, rs)
    requires forall i :: 0 <= i < |rs| && rs[i].Do? ==> OfRegistry(rs[i].call.op)
    ensures SameAnswers(entry, c, ttl, rs)
    decreases |rs|
  {
    hide EntryAfter, RowAfter, Respond, Apply, OfRegistry;
    if rs != [] {
      AgreesLater(entry, c, start, When(rs[0]));
      StepAgrees(entry, c, ttl, rs[0]);
      assert forall i :: 0 <= i < |rs[1..]| ==> rs[1..][i] == rs[i + 1];
      RunsAgree(EntryAfter(entry, ttl, rs[0]), RowAfter(c, ttl, rs[0]), ttl, When(rs[0]), rs[1..]);
    }
  }

  class Registry {
    var rooms: map<string, Lease>

    constructor ()
      ensures rooms == map[]
    {
      rooms := map[];
    }

    function Entry(code: string): Option<Lease>
      reads this
    {
      if code in rooms then Some(rooms[code]) else None
    }

    // Reserving and claiming are the same here: there is no snapshot to keep.
    method ReserveRoom(code: string, who: Instance, ttl: int, now: int) returns (error: Option<StoreError>)
      modifies this
      ensures Answer(Entry(code), error) == Respond(old(Entry(code)), ttl, Call(now, ReserveOp(who)))
      ensures forall c: Cell :: Agrees(old(Entry(code)), c, now) ==>
                error == Reserve(c, who, ttl, now).error && Agrees(Entry(code), Reserve(c, who, ttl, now).row, now)
                && error == Claim(c, who, ttl, now).error && Agrees(Entry(code), Claim(c, who, ttl, now).row, now)
      ensures forall other :: other != code ==> Entry(other) == old(Entry(other))
    {
      if code in rooms && rooms[code].expiresAt > now {
        return Some(CodeReserved);
      }
      rooms := rooms[code := Lease(who, now + ttl)];
      return None;
    }

    // Finding an expired entry removes it, which nobody can tell.
    method LookupRoom(code: string, now: int) returns (r: Result<Instance, StoreError>)
      modifies this
      ensures Entry(code) == EntryAfter(old(Entry(code)), 0, Lookup(now))
      ensures forall c: Cell :: Agrees(old(Entry(code)), c, now) ==>
                r == (if Live(c, now) then Success(c.value.owner) else Failure(RoomNotFound)) && Agrees(Entry(code), c, now)
      ensures forall other :: other != code ==> Entry(other) == old(Entry(other))
    {
      if code !in rooms {
        return Failure(RoomNotFound);
      }
      if rooms[code].expiresAt <= now {
        rooms := rooms - {code};
        return Failure(RoomNotFound);
      }
      return Success(rooms[code].owner);
    }

    method HeartbeatRoom(code: string, who: Instance, ttl: int, now: int) returns (error: Option<StoreError>)
      modifies this
      ensures Answer(Entry(code), error) == Respond(old(Entry(code)), ttl, Call(now, HeartbeatOp(who)))
      ensures forall c: Cell :: Agrees(old(Entry(code)), c, now) ==>
                error == Heartbeat(c, who, ttl, now).error && Agrees(Entry(code), Heartbeat(c, who, ttl, now).row, now)
      ensures forall other :: other != code ==> Entry(other) == old(Entry(other))
    {
      if code !in rooms || rooms[code].expiresAt <= now {
        return Some(RoomNotFound);
      }
      if rooms[code].owner != who {
        return Some(OwnedElsewhere(rooms[code].owner));
      }
      rooms := rooms[code := rooms[code].(expiresAt := now + ttl)];
      return None;
    }

    // The lease ends as in the database, but the answer looks at expired entries
    // too: it is the database's exactly when there is no such entry.
    method ReleaseRoom(code: string, who: Instance, now: int) returns (error: Option<StoreError>)
      modifies this
      ensures Answer(Entry(code), error) == Respond(old(Entry(code)), 0, Call(now, ReleaseOp(who)))
      ensures forall c: Cell :: Agrees(old(Entry(code)), c, now) ==>
                Agrees(Entry(code), Release(c, who, now).row, now)
                && (error == Release(c, who, now).error
                    <==> old(Entry(code)).None? || old(Entry(code)).value.expiresAt > now)
      ensures forall other :: other != code ==> Entry(other) == old(Entry(other))
    {
      if code !in rooms {
        return Some(RoomNotFound);
      }
      if rooms[code].owner != who {
        return Some(OwnedElsewhere(rooms[code].owner));
      }
      rooms := rooms[code := rooms[code].(expiresAt := now)];
      return None;
    }
  }

  // Snapshots kept in memory belong to nobody; an older one never replaces a
  // newer one.
  class StateStore {
    var states: map<string, PersistedRoomState>

    constructor ()
      ensures states == map[]
    {
      states := map[];
    }

    method SaveRoomState(state: PersistedRoomState)
      modifies this
      ensures state.code in states && states[state.code].revision >= state.revision
      ensures states[state.code] == state
           <==> !(state.code in old(states) && old(states)[state.code].revision > state.revision)
      ensures states - {state.code} == old(states) - {state.code}
      ensures forall code :: code in old(states) ==> code in states && states[code].revision >= old(states)[code].revision
    {
      if state.code in states && states[state.code].revision > state.revision {
        return;
      }
      states := states[state.code := state];
    }

    method LoadRoomState(code: string) returns (r: Result<PersistedRoomState, StoreError>)
      ensures r == if code in states then Success(states[code]) else Failure(StateNotFound)
    {
      if code in states {
        return Success(states[code]);
      }
      return Failure(StateNotFound);
    }

    method DeleteRoomState(code: string)
      modifies this
      ensures states == old(states) - {code}
    {
      states := states - {code};
    }
  }
}
