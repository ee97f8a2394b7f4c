// The rooms of one instance (backend/internal/realtime/manager.go). Every call
// into the store is one statement; calls of other instances between them are the
// subject of RoomTakeover and RoomHolders.
module RoomManagers {
  import opened Wrappers
  import opened Sequences
  import opened Cards
  import opened RoomTypes
  import opened RoomRules
  import opened RoomInvariant
  import opened RoomRestore
  import opened RoomLeases
  import opened RoomLoops
  import opened SaveQueue
  import opened LiveRoom

  const ROOM_CODE_ATTEMPTS := 64

  // A lease term; options that are not positive are ignored.
  type Term = n: int | 0 < n witness 1

  datatype ManagerError =
    | Draining | Capacity | NoUniqueCode | StateUnavailable | CodeMismatch
    | Store(error: StoreError) | Unrestorable(reason: RestoreError)

  class RoomManager {
    const me: Instance
    const ttl: Term
    const maxLocalRooms: nat
    const store: RoomStore
    var deck: Deck
    var rooms: map<string, Room>
    var pending: Pending
    var draining: bool

    constructor (me0: Instance, ttl0: Term, max: nat, store0: RoomStore, deck0: Deck)
      ensures me == me0 && ttl == ttl0 && maxLocalRooms == max && store == store0 && deck == deck0
      ensures rooms == map[] && pending == map[] && !draining
    {
      me, ttl, maxLocalRooms, store, deck := me0, ttl0, max, store0, deck0;
      rooms, pending, draining := map[], map[], false;
    }

    ghost predicate WaitingFiled()
      reads this
    {
      forall code :: code in pending ==> pending[code].code == code
    }

    // --- saving ---

    method PersistRoom(room: Room, now: int) returns (error: Option<StoreError>)
      requires Seated(room.State()) && Table(room.players, room.submissions, room.entropy.nextId)
      modifies store
      ensures Reply(store.Cell(room.code), error) == Save(old(store.Cell(room.code)), me, Persist(room.State()), now)
      ensures forall other :: other != room.code ==> CellIn(store.rows, other) == CellIn(old(store.rows), other)
    {
      var saved := room.PersistedState();
      error := store.SaveRoomState(me, saved, now);
    }

    method EnqueueRoomState(state: PersistedRoomState)
      modifies this`pending
      ensures pending == Enqueue(old(pending), state)
    {
      if state.code !in pending || pending[state.code].revision < state.revision {
        pending := pending[state.code := state];
      }
    }

    method NextPendingRoomState() returns (state: Option<PersistedRoomState>)
      requires WaitingFiled()
      modifies this`pending
      ensures state.None? <==> old(pending) == map[]
      ensures state.Some? ==>
                state.value.code in old(pending) && old(pending)[state.value.code] == state.value
                && pending == old(pending) - {state.value.code}
      ensures state.None? ==> pending == old(pending)
    {
      if pending == map[] {
        return None;
      }
      var code :| code in pending;
      state := Some(pending[code]);
      pending := pending - {code};
    }

    // Takes a snapshot off the queue and tries to save it.
    method SaveNext(now: int) returns (taken: Option<PersistedRoomState>, error: Option<StoreError>)
      requires WaitingFiled()
      modifies this`pending, store
      ensures taken.None? <==> old(pending) == map[]
      ensures taken.None? ==> pending == old(pending) && store.rows == old(store.rows) && error.None?
      ensures taken.Some? ==>
                var code := taken.value.code;
                code in old(pending) && old(pending)[code] == taken.value && pending == old(pending) - {code}
                && Reply(store.Cell(code), error) == Save(old(store.Cell(code)), me, taken.value, now)
                && forall other :: other != code ==> CellIn(store.rows, other) == CellIn(old(store.rows), other)
    {
      error := None;
      taken := NextPendingRoomState();
      if taken.Some? {
        error := store.SaveRoomState(me, taken.value, now);
      }
    }

    // One round of the worker: what could not be saved waits again, unless the
    // room has gone from here.
    method PersistNext(now: int) returns (taken: Option<PersistedRoomState>)
      requires WaitingFiled()
      modifies this`pending, store
      ensures WaitingFiled() && (taken.None? <==> old(pending) == map[])
      ensures taken.None? ==> pending == old(pending) && store.rows == old(store.rows)
      ensures taken.Some? ==>
                var code := taken.value.code;
                code in old(pending) && old(pending)[code] == taken.value
                && (if Owns(old(store.Cell(code)), me, now)
                    then pending == old(pending) - {code} && Owns(store.Cell(code), me, now)
                         && store.Cell(code).value.version >= taken.value.revision
                    else store.Cell(code) == old(store.Cell(code))
                         && pending == if code in rooms then old(pending) else old(pending) - {code})
    {
      ghost var before := pending;
      var error;
      taken, error := SaveNext(now);
      if error.Some? && taken.value.code in rooms {
        EnqueueRoomState(taken.value);
        assert pending == before;
      }
    }

    // Saves what waits until something is refused, before the deadline passes.
    // One refusal leaves the rest unsaved: the queue is emptied exactly when
    // every room in it is still ours.
    method FlushPendingRoomStates(now: int)
      requires WaitingFiled()
      modifies this`pending, store
      ensures WaitingFiled()
      ensures pending == map[] <==> forall code :: code in old(pending) ==> Owns(old(store.Cell(code)), me, now)
      ensures Flushed(old(pending), pending, old(store.rows), store.rows, me, now)
    {
      hide Owns, Save, Saved, CellIn, Flushed;
      ghost var all, rows := pending, store.rows;
      NothingFlushed(all, rows, me, now);
      while true
        invariant WaitingFiled() && Flushed(all, pending, rows, store.rows, me, now)
        decreases |pending|
      {
        ghost var waiting, stored := pending, store.rows;
        var taken, error := SaveNext(now);
        if taken.None? {
          AllFlushed(all, rows, store.rows, me, now);
          return;
        }
        ghost var code := taken.value.code;
        FlushedStill(all, waiting, rows, stored, me, now, code);
        SaveOutcome(CellIn(stored, code), me, taken.value, now);
        OneTaken(waiting, code);
        if error.Some? {
          EnqueueRoomState(taken.value);
          assert pending == waiting;
          FlushStops(all, waiting, rows, stored, store.rows, me, now, code);
          return;
        }
        OneFlushed(all, waiting, rows, stored, store.rows, me, now, code);
      }
    }

    // --- keeping and giving up rooms ---

    method ClearPendingRoomState(code: string)
      modifies this`pending
      ensures pending == old(pending) - {code}
    {
      pending := pending - {code};
    }

    // The room's own shutdown, which closes its sockets, is not modelled.
    method RevokeRoom(code: string)
      modifies this`rooms, this`pending
      ensures rooms == old(rooms) - {code} && pending == old(pending) - {code}
    {
      rooms := rooms - {code};
      ClearPendingRoomState(code);
    }

    method RemoveRoom(code: string, expected: Room)
      modifies this`rooms, this`pending
      ensures rooms == (if code in old(rooms) && old(rooms)[code] == expected then old(rooms) - {code} else old(rooms))
      ensures pending == old(pending) - {code}
    {
      if code in rooms && rooms[code] == expected {
        rooms := rooms - {code};
      }
      ClearPendingRoomState(code);
    }

    // After a heartbeat an instance holds exactly the rooms whose lease was still
    // its own, and each of those is leased for another term.
    method HeartbeatLocalRooms(now: int)
      modifies this`rooms, this`pending, store
      ensures rooms.Keys == OwnedCodes(old(rooms).Keys, old(store.rows), me, now)
      ensures forall code :: code in rooms ==>
                rooms[code] == old(rooms)[code] && CellIn(store.rows, code) == Some(old(store.rows)[code].(expiresAt := now + ttl))
      ensures forall code :: code !in rooms ==> CellIn(store.rows, code) == CellIn(old(store.rows), code)
      ensures forall code :: code in pending ==> code in old(pending) && pending[code] == old(pending)[code]
      ensures forall code :: code in old(pending) ==> (code in pending <==> code !in old(rooms) || code in rooms)
    {
      ghost var r0, p0, s0 := rooms, pending, store.rows;
      var left := rooms.Keys;
      while left != {}
        invariant left <= r0.Keys && Beaten(r0, rooms, left, s0, store.rows, me, ttl, now)
        invariant forall code :: code in pending ==> code in p0 && pending[code] == p0[code]
        invariant forall code :: code in p0 ==> (code in pending <==> code !in r0 || code in rooms)
        decreases |left|
      {
        var code :| code in left;
        ghost var r1, s1 := rooms, store.rows;
        var error := store.HeartbeatRoom(code, me, ttl, now);
        BeatOne(r0, r1, left, s0, s1, store.rows, me, ttl, now, code);
        if error.Some? {
          RevokeRoom(code);
        }
        left := left - {code};
      }
    }

    method StartDraining()
      modifies this`draining
      ensures draining
    {
      draining := true;
    }

    // Everything is flushed as far as possible, and every room that was here is
    // free for another instance to claim, its snapshot still in the store. If no
    // lease has been lost, nothing that waited is lost either.
    method Shutdown(now: int)
      requires WaitingFiled()
      modifies this`rooms, this`pending, store
      ensures rooms == map[]
      ensures forall code :: code in old(rooms) ==> !Owns(CellIn(store.rows, code), me, now) && code !in pending
      ensures forall code :: SnapshotKept(CellIn(store.rows, code), CellIn(old(store.rows), code))
      ensures (forall code :: code in old(pending) ==> Owns(CellIn(old(store.rows), code), me, now)) ==>
                forall code :: code in old(pending) ==>
                  CellIn(store.rows, code).Some? && CellIn(store.rows, code).value.version >= old(pending)[code].revision
    {
      hide Owns, SnapshotKept, Flushed;
      ghost var s0, p0 := store.rows, pending;
      var codes := rooms.Keys;
      rooms := map[];
      FlushPendingRoomStates(now);
      ghost var s1, p1 := store.rows, pending;
      FlushKeeps(p0, p1, s0, s1, me, now);
      ReleaseAll(codes, now);
      forall code
        ensures SnapshotKept(CellIn(store.rows, code), CellIn(s0, code))
        ensures CellIn(s1, code).Some? ==> CellIn(store.rows, code).Some?
                                           && CellIn(store.rows, code).value.version == CellIn(s1, code).value.version
      {
        ReleasedFacts(CellIn(store.rows, code), CellIn(s1, code), CellIn(s0, code), me, now);
      }
    }

    method ReleaseAll(codes: set<string>, now: int)
      modifies this`pending, store
      ensures pending == old(pending) - codes
      ensures forall code :: CellIn(store.rows, code)
                == if code in codes then Release(CellIn(old(store.rows), code), me, now).row else CellIn(old(store.rows), code)
      ensures forall code :: code in codes ==> !Owns(CellIn(store.rows, code), me, now)
    {
      var left := codes;
      while left != {}
        invariant left <= codes && pending == old(pending) - (codes - left)
        invariant forall code :: CellIn(store.rows, code)
                    == if code in codes - left then Release(CellIn(old(store.rows), code), me, now).row
                       else CellIn(old(store.rows), code)
        decreases |left|
      {
        var code :| code in left;
        ClearPendingRoomState(code);
        var error := store.ReleaseRoom(code, me, now);
        left := left - {code};
      }
    }

    // --- opening rooms ---

    method CanAcceptNewRoom() returns (error: Option<ManagerError>)
      ensures error == if draining then Some(Draining) else if |rooms| >= maxLocalRooms then Some(Capacity) else None
    {
      if draining {
        return Some(Draining);
      }
      if |rooms| >= maxLocalRooms {
        return Some(Capacity);
      }
      return None;
    }

    // One attempt of CreateRoom: a room under this code, or None when the code is
    // taken. The first save comes `late` after the reservation.
    method TryCode(code: string, e: Entropy, now: int, late: nat) returns (r: Option<Result<Room, ManagerError>>)
      requires deck.Playable() && deck.For(Family).Playable() && e.nextId > 0 && code !in rooms
      modifies this`rooms, this`pending, store
      ensures r.None? <==> Live(CellIn(old(store.rows), code), now)
      ensures r.None? ==> rooms == old(rooms) && store.rows == old(store.rows)
      ensures r.Some? ==> (r.value.Success? <==> late < ttl)
      ensures r.Some? && r.value.Success? ==>
                var room := r.value.value;
                fresh(room) && room.code == code && NewlyOpened(room.State(), old(store.rows), store.rows, e, now)
                && rooms == old(rooms)[code := room]
      ensures r.Some? && r.value.Failure? ==> r.value.error == Store(RoomNotFound) && rooms == old(rooms)
      ensures forall other :: other != code ==> CellIn(store.rows, other) == CellIn(old(store.rows), other)
    {
      hide Valid, Persist, NewRoom;
      var taken := HoldCode(code, now);
      if taken {
        return None;
      }
      var room := new Room(code, deck, e, now);
      rooms := rooms[code := room];
      FirstRevision(code, deck, e, now);
      var error := PersistNew(room, now + late);
      if error.Some? {
        RemoveRoom(code, room);
        var released := store.ReleaseRoom(code, me, now + late);
        return Some(Failure(Store(error.value)));
      }
      return Some(Success(room));
    }

    // A fresh row for a free code, empty of any earlier snapshot.
    method HoldCode(code: string, now: int) returns (taken: bool)
      modifies store
      ensures taken <==> Live(CellIn(old(store.rows), code), now)
      ensures taken ==> store.rows == old(store.rows)
      ensures !taken ==> CellIn(store.rows, code) == Some(Row(me, now + ttl, None, 0))
      ensures forall other :: other != code ==> CellIn(store.rows, other) == CellIn(old(store.rows), other)
    {
      var error := store.ReserveRoom(code, me, ttl, now);
      if error.Some? {
        return true;
      }
      store.ResetRoomState(code, me);
      return false;
    }

    // The room is new and valid, its code was free in the store and is now leased
    // to this instance with the room's snapshot under it; no other row is touched.
    ghost predicate NewlyOpened(s: RoomState, before: map<string, Row>, after: map<string, Row>, e: Entropy, now: int)
      reads this
    {
      Valid(s) && s == Observed(NewRoom(s.code, deck, e, now))
      && !Live(CellIn(before, s.code), now) && Owns(CellIn(after, s.code), me, now)
      && CellIn(after, s.code) == Some(Row(me, now + ttl, Some(Persist(s)), 1))
      && forall other :: other != s.code ==> CellIn(after, other) == CellIn(before, other)
    }

    // `codes` are the codes the random generator will come up with, `late` the time
    // a reservation takes to be followed by the first save.
    method CreateRoom(codes: seq<string>, e: Entropy, now: int, late: nat) returns (r: Result<Room, ManagerError>)
      requires |codes| == ROOM_CODE_ATTEMPTS && deck.Playable() && deck.For(Family).Playable() && e.nextId > 0
      modifies this`rooms, this`pending, store
      // A room is handed out only under a code that was free here and in the
      // store, leased to this instance, with its first snapshot already stored.
      ensures r.Success? ==>
                var room := r.value;
                fresh(room) && room.code in codes && room.code !in old(rooms) && rooms == old(rooms)[room.code := room]
                && |rooms| <= maxLocalRooms && !old(draining)
                && NewlyOpened(room.State(), old(store.rows), store.rows, e, now)
      // The first free code decides, and the call fails only when there is none, when
      // no room may be opened, or when the first save misses the lease.
      ensures r == Failure(Draining) <==> draining
      ensures r == Failure(Capacity) <==> !draining && |old(rooms)| >= maxLocalRooms
      ensures r == Failure(NoUniqueCode) <==>
                !draining && |old(rooms)| < maxLocalRooms
                && forall k :: 0 <= k < |codes| ==> InUse(codes[k], old(rooms), old(store.rows), now)
      ensures r.Success? <==>
                !draining && |old(rooms)| < maxLocalRooms && late < ttl
                && exists k :: 0 <= k < |codes| && !InUse(codes[k], old(rooms), old(store.rows), now)
      ensures r.Success? ==> FirstFree(codes, r.value.code, old(rooms), old(store.rows), now)
      ensures r.Failure? ==> rooms == old(rooms)
      ensures forall code :: Live(CellIn(old(store.rows), code), now) ==> CellIn(store.rows, code) == CellIn(old(store.rows), code)
    {
      hide NewlyOpened;
      var attempt := 0;
      while attempt < ROOM_CODE_ATTEMPTS
        invariant attempt <= ROOM_CODE_ATTEMPTS && rooms == old(rooms) && store.rows == old(store.rows)
        invariant attempt > 0 ==> !draining && |rooms| < maxLocalRooms
        invariant forall k :: 0 <= k < attempt ==> InUse(codes[k], rooms, store.rows, now)
      {
        var refused := CanAcceptNewRoom();
        if refused.Some? {
          return Failure(refused.value);
        }
        var code := codes[attempt];
        attempt := attempt + 1;
        if code !in rooms {
          var outcome := TryCode(code, e, now, late);
          if outcome.Some? {
            return outcome.value;
          }
        }
      }
      return Failure(NoUniqueCode);
    }

    method PersistNew(room: Room, now: int) returns (error: Option<StoreError>)
      requires Valid(room.State())
      modifies store
      ensures Reply(CellIn(store.rows, room.code), error) == Save(CellIn(old(store.rows), room.code), me, Persist(room.State()), now)
      ensures forall other :: other != room.code ==> CellIn(store.rows, other) == CellIn(old(store.rows), other)
    {
      ReadyToChange(room.State());
      error := PersistRoom(room, now);
    }

    method InstallRestoredRoom(code: string, state: PersistedRoomState, e: Entropy, now: int) returns (r: Result<Room, ManagerError>)
      modifies this`rooms
      ensures code in old(rooms) ==> Answers(r, Unfit(code, state, deck, e, now)) && rooms == old(rooms)
      ensures code in old(rooms) && r.Success? ==> r.value == old(rooms)[code]
      ensures code !in old(rooms) ==> Answers(r, Obstacle(code, state, deck, e, now, draining, |old(rooms)| >= maxLocalRooms))
      ensures code !in old(rooms) && r.Success? ==>
                fresh(r.value) && rooms == old(rooms)[code := r.value] && r.value.code == code
                && RoomRestore.Restore(state, deck, e, now).Success?
                && r.value.State() == RoomRestore.Resume(RoomRestore.Restore(state, deck, e, now).value, now)
      ensures r.Failure? ==> rooms == old(rooms)
    {
      hide RoomRestore.Restore, ScheduleComputerTurns, NormalCode;
      var restored := LiveRoom.Restore(state, deck, e, now);
      if restored.Failure? {
        return Failure(Unrestorable(restored.error));
      }
      var room := restored.value;
      RestoredCode(state, deck, e, now);
      if room.code != code {
        return Failure(CodeMismatch);
      }
      if code in rooms {
        return Success(rooms[code]);
      }
      var refused := CanAcceptNewRoom();
      if refused.Some? {
        return Failure(refused.value);
      }
      rooms := rooms[code := room];
      room.Resume(now);
      return Success(room);
    }

    method GetRoom(asked: string, e: Entropy, now: int) returns (r: Result<Room, ManagerError>)
      modifies this`rooms, store
      ensures r == Failure(Draining) <==> draining
      ensures draining || NormalCode(asked) in old(rooms) ==> rooms == old(rooms) && store.rows == old(store.rows)
      ensures !draining && NormalCode(asked) in old(rooms) ==> r == Success(old(rooms)[NormalCode(asked)])
      // What is not here is sought in the store.
      ensures !draining && NormalCode(asked) !in old(rooms) ==>
                var code := NormalCode(asked);
                Answers(r, Refused(code, old(store.rows), me, deck, e, now, |old(rooms)| >= maxLocalRooms))
                && Written(code, old(store.rows), store.rows, me, now, if r.Success? then now + ttl else now)
      // A room brought back is the stored one.
      ensures !draining && NormalCode(asked) !in old(rooms) && r.Success? ==>
                var code := NormalCode(asked);
                fresh(r.value) && rooms == old(rooms)[code := r.value] && r.value.code == code
                && Load(CellIn(old(store.rows), code)).Success?
                && var state := Load(CellIn(old(store.rows), code)).value;
                   RoomRestore.Restore(state, deck, e, now).Success?
                   && r.value.State() == RoomRestore.Resume(RoomRestore.Restore(state, deck, e, now).value, now)
      ensures r.Failure? ==> rooms == old(rooms)
    {
      hide RoomRestore.Restore, RoomRestore.Resume, NormalCode, Obstacle;
      if draining {
        return Failure(Draining);
      }
      var code := NormalCode(asked);
      if code in rooms {
        return Success(rooms[code]);
      }
      var record := store.LookupRoom(code, now);
      var loaded := store.LoadRoomState(code);
      if record.Success? {
        if record.value != me {
          return Failure(Store(OwnedElsewhere(record.value)));
        }
        if loaded.Failure? {
          return Failure(StateUnavailable);
        }
        r := InstallRestoredRoom(code, loaded.value, e, now);
        return;
      }
      if loaded.Failure? {
        return Failure(Store(RoomNotFound));
      }
      var error := store.ClaimRoom(code, me, ttl, now);
      // Only a call of another instance in between could have the claim refused.
      assert error.None?;
      error := store.SaveRoomState(me, loaded.value, now);
      if error.Some? {
        var released := store.ReleaseRoom(code, me, now);
        return Failure(Store(error.value));
      }
      r := InstallRestoredRoom(code, loaded.value, e, now);
      if r.Failure? {
        var released := store.ReleaseRoom(code, me, now);
      }
    }
  }

  // --- what a search comes to ---

  ghost predicate InUse(code: string, rooms: map<string, Room>, rows: map<string, Row>, now: int) {
    code in rooms || Live(CellIn(rows, code), now)
  }

  ghost predicate FirstFree(codes: seq<string>, code: string, rooms: map<string, Room>, rows: map<string, Row>, now: int) {
    exists k :: 0 <= k < |codes| && codes[k] == code && !InUse(codes[k], rooms, rows, now)
                && forall j :: 0 <= j < k ==> InUse(codes[j], rooms, rows, now)
  }

  // A snapshot that cannot be a room of this code.
  ghost function Unfit(code: string, state: PersistedRoomState, deck: Deck, e: Entropy, now: int): Option<ManagerError> {
    var restored := RoomRestore.Restore(state, deck, e, now);
    if restored.Failure? then Some(Unrestorable(restored.error))
    else if NormalCode(state.code) != code then Some(CodeMismatch)
    else None
  }

  // What keeps a snapshot from becoming a room here.
  ghost function Obstacle(code: string, state: PersistedRoomState, deck: Deck, e: Entropy, now: int,
                          draining: bool, full: bool): (o: Option<ManagerError>)
    ensures o == Some(Draining) ==> draining
    ensures o.Some? ==> !o.value.Store? && !o.value.StateUnavailable?
  {
    var unfit := Unfit(code, state, deck, e, now);
    if unfit.Some? then unfit else if draining then Some(Draining) else if full then Some(Capacity) else None
  }

  ghost predicate Answers(r: Result<Room, ManagerError>, obstacle: Option<ManagerError>) {
    if obstacle.Some? then r == Failure(obstacle.value) else r.Success?
  }

  // The row of `code` names another instance, has no snapshot to bring back, or has
  // one that is filed under a code of somebody else's or does not fit.
  ghost function Refused(code: string, rows: map<string, Row>, me: Instance, deck: Deck, e: Entropy, now: int, full: bool)
    : Option<ManagerError> {
    var cell := CellIn(rows, code);
    var loaded := Load(cell);
    if Live(cell, now) then
      if cell.value.owner != me then Some(Store(OwnedElsewhere(cell.value.owner)))
      else if loaded.Failure? then Some(StateUnavailable)
      else Obstacle(code, loaded.value, deck, e, now, false, full)
    else if loaded.Failure? then Some(Store(RoomNotFound))
    else if loaded.value.code != code && !Owns(CellIn(rows, loaded.value.code), me, now)
    then Some(Store(Refusal(CellIn(rows, loaded.value.code), now)))
    else Obstacle(code, loaded.value, deck, e, now, false, full)
  }

  // A lapsed row with a snapshot passes to this instance `until`, and the snapshot is
  // saved under the code it names. Nothing else is written.
  ghost predicate Written(code: string, before: map<string, Row>, after: map<string, Row>, me: Instance, now: int, until: int) {
    var cell := CellIn(before, code);
    if Live(cell, now) || Load(cell).Failure? then after == before
    else
      var state := Load(cell).value;
      var version := if state.code == code && cell.value.version <= state.revision then state.revision else cell.value.version;
      CellIn(after, code) == Some(Row(me, until, Some(state), version))
      && (state.code != code ==> CellIn(after, state.code) == Save(CellIn(before, state.code), me, state, now).row)
      && forall other :: other != code && other != state.code ==> CellIn(after, other) == CellIn(before, other)
  }

  // Snapshots are filed under the code they name: `SaveRoomState` knows no other way.
  ghost predicate Filed(code: string, rows: map<string, Row>) {
    Load(CellIn(rows, code)).Success? ==> Load(CellIn(rows, code)).value.code == code
  }

  // A search for a room that is not here is answered by its owner's name exactly
  // while another instance holds it, comes to nothing exactly when nobody does and
  // nothing is stored, and brings the room back exactly when the snapshot can be
  // restored under that code, there is capacity and no other instance has the lease.
  lemma SearchOutcome(asked: string, rows: map<string, Row>, me: Instance, deck: Deck, e: Entropy, now: int, full: bool, other: Instance)
    requires Filed(NormalCode(asked), rows)
    ensures var code := NormalCode(asked);
            var cell := CellIn(rows, code);
            var loaded := Load(cell);
            var why := Refused(code, rows, me, deck, e, now, full);
            (why == Some(Store(OwnedElsewhere(other))) <==> Owns(cell, other, now) && other != me)
            && (why == Some(Store(RoomNotFound)) <==> !Live(cell, now) && loaded.Failure?)
            && (why == Some(StateUnavailable) <==> Owns(cell, me, now) && loaded.Failure?)
            && (why.None? <==> (Live(cell, now) ==> Owns(cell, me, now)) && loaded.Success? && !full
                               && RoomRestore.Restore(loaded.value, deck, e, now).Success?)
  {
    hide RoomRestore.Restore, NormalCode;
    NormalTwice(asked);
  }

  lemma RestoredCode(state: PersistedRoomState, deck: Deck, e: Entropy, now: int)
    ensures var r := RoomRestore.Restore(state, deck, e, now); r.Success? ==> r.value.code == NormalCode(state.code)
  {
    hide NormalCode, RestorePlayers, RestoreSubmissions, ClampInt, AnswerShoe, PromptShoe;
  }

  lemma FirstRevision(code: string, deck: Deck, e: Entropy, now: int)
    ensures var s := Observed(NewRoom(code, deck, e, now));
            Seated(s) && Persist(s).revision == 1 && Persist(s).code == code && s.code == code
  {
    hide AnswerShoe, PromptShoe;
  }

  ghost function OwnedCodes(codes: set<string>, rows: map<string, Row>, me: Instance, now: int): set<string> {
    set code | code in codes && Owns(CellIn(rows, code), me, now)
  }

  // The heartbeat loop has dealt with every room but those left.
  ghost predicate Beaten(r0: map<string, Room>, r: map<string, Room>, left: set<string>, s0: map<string, Row>, s: map<string, Row>,
                         me: Instance, ttl: int, now: int) {
    (forall code :: code in r ==> code in r0 && r[code] == r0[code])
    && (forall code :: code in r0 ==> (code in r <==> code in left || Owns(CellIn(s0, code), me, now)))
    && (forall code :: code !in left && code in r ==> CellIn(s, code) == Some(s0[code].(expiresAt := now + ttl)))
    && (forall code :: code in left || code !in r ==> CellIn(s, code) == CellIn(s0, code))
  }

  lemma BeatOne(r0: map<string, Room>, r: map<string, Room>, left: set<string>, s0: map<string, Row>, s: map<string, Row>,
                s': map<string, Row>, me: Instance, ttl: int, now: int, code: string)
    requires Beaten(r0, r, left, s0, s, me, ttl, now) && code in left && left <= r0.Keys
    requires CellIn(s', code) == Heartbeat(CellIn(s, code), me, ttl, now).row
    requires forall other :: other != code ==> CellIn(s', other) == CellIn(s, other)
    ensures var error := Heartbeat(CellIn(s, code), me, ttl, now).error;
            (error.None? ==> Beaten(r0, r, left - {code}, s0, s', me, ttl, now))
            && (error.Some? ==> Beaten(r0, r - {code}, left - {code}, s0, s', me, ttl, now))
  {
  }

  ghost predicate SnapshotKept(after: Cell, before: Cell) {
    before.Some? ==>
      after.Some? && after.value.version >= before.value.version
  }

  lemma ReleasedFacts(after: Cell, mid: Cell, before: Cell, me: Instance, now: int)
    requires after == mid || after == Release(mid, me, now).row
    requires SnapshotKept(mid, before)
    ensures SnapshotKept(after, before)
    ensures mid.Some? ==> after.Some? && after.value.version == mid.value.version
  {
  }

  lemma FlushKeeps(all: Pending, pending: Pending, rows: map<string, Row>, rows': map<string, Row>, me: Instance, now: int)
    requires Flushed(all, pending, rows, rows', me, now)
    ensures forall code :: SnapshotKept(CellIn(rows', code), CellIn(rows, code))
    ensures forall code :: code in all && code !in pending ==>
              CellIn(rows', code).Some? && CellIn(rows', code).value.version >= all[code].revision
  {
    hide Owns, CellIn;
    forall code
      ensures SnapshotKept(CellIn(rows', code), CellIn(rows, code))
    {
      if code in pending || code !in all {
        assert CellIn(rows', code) == CellIn(rows, code);
      } else {
        assert Saved(CellIn(rows', code), CellIn(rows, code), all[code]);
      }
    }
  }

  // What has left the queue is saved, the rest is as it was.
  ghost predicate Flushed(all: Pending, pending: Pending, rows: map<string, Row>, rows': map<string, Row>, me: Instance, now: int) {
    (forall code :: code in pending ==> code in all && pending[code] == all[code])
    && (forall code :: code in pending || code !in all ==> CellIn(rows', code) == CellIn(rows, code))
    && (forall code :: code in all && code !in pending ==>
          Owns(CellIn(rows, code), me, now) && Saved(CellIn(rows', code), CellIn(rows, code), all[code]))
  }

  lemma NothingFlushed(all: Pending, rows: map<string, Row>, me: Instance, now: int)
    ensures Flushed(all, all, rows, rows, me, now)
  {
  }

  lemma AllFlushed(all: Pending, rows: map<string, Row>, rows': map<string, Row>, me: Instance, now: int)
    requires Flushed(all, map[], rows, rows', me, now)
    ensures forall code :: code in all ==> Owns(CellIn(rows, code), me, now)
  {
  }

  lemma FlushedStill(all: Pending, pending: Pending, rows: map<string, Row>, rows': map<string, Row>, me: Instance, now: int, code: string)
    requires Flushed(all, pending, rows, rows', me, now) && code in pending
    ensures code in all && pending[code] == all[code] && CellIn(rows', code) == CellIn(rows, code)
  {
  }

  lemma OneFlushed(all: Pending, pending: Pending, rows: map<string, Row>, rows': map<string, Row>, rows'': map<string, Row>,
                   me: Instance, now: int, code: string)
    requires Flushed(all, pending, rows, rows', me, now) && code in pending && Owns(CellIn(rows', code), me, now)
    requires Saved(CellIn(rows'', code), CellIn(rows', code), pending[code])
    requires forall other :: other != code ==> CellIn(rows'', other) == CellIn(rows', other)
    ensures Flushed(all, pending - {code}, rows, rows'', me, now)
  {
    hide Owns, Saved, CellIn;
  }

  lemma FlushStops(all: Pending, pending: Pending, rows: map<string, Row>, rows': map<string, Row>, rows'': map<string, Row>,
                   me: Instance, now: int, code: string)
    requires Flushed(all, pending, rows, rows', me, now) && code in pending && !Owns(CellIn(rows', code), me, now)
    requires CellIn(rows'', code) == CellIn(rows', code)
    requires forall other :: other != code ==> CellIn(rows'', other) == CellIn(rows', other)
    ensures Flushed(all, pending, rows, rows'', me, now)
    ensures code in all && !Owns(CellIn(rows, code), me, now)
  {
    hide Owns, Saved, CellIn;
  }

  // A save of the owner's: the lease stands, and the row holds the revision or a
  // later one.
  ghost predicate Saved(after: Cell, before: Cell, state: PersistedRoomState) {
    after.Some? && before.Some? && after.value.owner == before.value.owner && after.value.expiresAt == before.value.expiresAt
    && after.value.version >= state.revision && after.value.version >= before.value.version
  }

  lemma SaveOutcome(c: Cell, who: Instance, state: PersistedRoomState, now: int)
    ensures var r := Save(c, who, state, now);
            (r.error.None? <==> Owns(c, who, now)) && (r.error.None? ==> Saved(r.row, c, state)) && (r.error.Some? ==> r.row == c)
  {
  }

  lemma OneTaken(pending: Pending, code: string)
    requires code in pending
    ensures |pending - {code}| < |pending|
  {
    assert pending.Keys == (pending - {code}).Keys + {code};
  }
}
