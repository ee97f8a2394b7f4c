// Taking over a room whose owner is gone (GetRoom in
// backend/internal/realtime/manager.go): look the code up, load the snapshot,
// claim the lease, save the snapshot back, install the room. Other instances
// run between the steps.
module RoomTakeover {
  import opened Wrappers
  import opened RoomTypes
  import opened RoomLeases
  import opened Cards
  import opened RoomRules
  import opened RoomInvariant
  import opened RoomRestore

  datatype Outcome =
    | NoSnapshot
    | ClaimRefused(error: StoreError)
    | SaveRefused(error: StoreError)
    | Installed(state: PersistedRoomState, row: Cell)

  // `c` is the row when the snapshot is loaded; `before` is what others do up to
  // the claim and `between` what they do from there to the save.
  function TakeOver(c: Cell, ttl: int, who: Instance, before: seq<Call>, claimAt: int, between: seq<Call>, saveAt: int): Outcome {
    var loaded := Load(c);
    if loaded.Failure? then NoSnapshot
    else
      var claimed := Claim(End(c, ttl, before), who, ttl, claimAt);
      if claimed.error.Some? then ClaimRefused(claimed.error.value)
      else
        var saved := Save(End(claimed.row, ttl, between), who, loaded.value, saveAt);
        if saved.error.Some? then SaveRefused(saved.error.value)
        else Installed(loaded.value, saved.row)
  }

  // The row SaveRoomState finds.
  function RowAtSave(c: Cell, ttl: int, who: Instance, before: seq<Call>, claimAt: int, between: seq<Call>): Cell {
    End(Claim(End(c, ttl, before), who, ttl, claimAt).row, ttl, between)
  }

  // The room installed is the room stored exactly when the row, at the save, is
  // no newer than what was loaded. The save itself reports success either way.
  lemma InstalledIsStored(c: Cell, ttl: int, who: Instance, before: seq<Call>, claimAt: int, between: seq<Call>, saveAt: int)
    requires Consistent(c)
    requires TakeOver(c, ttl, who, before, claimAt, between, saveAt).Installed?
    ensures var t := TakeOver(c, ttl, who, before, claimAt, between, saveAt);
            var r := RowAtSave(c, ttl, who, before, claimAt, between);
            r.Some? && t.row.Some?
            && (t.row.value.state == Some(t.state) <==> r.value.version <= t.state.revision)
  {
    StaysConsistent(c, ttl, before);
    StaysConsistent(Claim(End(c, ttl, before), who, ttl, claimAt).row, ttl, between);
  }

  // From a lookup that finds no live lease, the row does not change until
  // somebody claims, reserves, resets or deletes it.
  lemma {:induction false} RowFrozen(c: Cell, ttl: int, calls: seq<Call>, start: int)
    requires !Live(c, start) && InOrder(start, calls)
    requires forall i :: 0 <= i < |calls| ==> !Acquires(calls[i].op) && !Wipes(calls[i].op)
    ensures End(c, ttl, calls) == c
    decreases |calls|
  {
    if calls != [] {
      assert Apply(c, ttl, calls[0]).row == c;
      assert forall i :: 0 <= i < |calls[1..]| ==> calls[1..][i] == calls[i + 1];
      RowFrozen(c, ttl, calls[1..], start);
    }
  }

  // A fresh lease keeps everyone else off the row while it lasts.
  lemma {:induction false} OthersKeptOut(c: Cell, ttl: int, who: Instance, calls: seq<Call>)
    requires c.Some? && c.value.owner == who
    requires forall i :: 0 <= i < |calls| ==> calls[i].op.who != who && calls[i].now < c.value.expiresAt
    ensures End(c, ttl, calls) == c
    decreases |calls|
  {
    if calls != [] {
      assert Apply(c, ttl, calls[0]).row == c;
      OthersKeptOut(c, ttl, who, calls[1..]);
    }
  }

  // If nobody else took, reserved, reset or deleted the row between the lookup
  // and the claim, takeover resumes the very snapshot that was stored last, and
  // leaves it stored under the new owner.
  lemma TakeoverResumesNewest(c: Cell, ttl: int, who: Instance, lookupAt: int, before: seq<Call>, claimAt: int, between: seq<Call>, saveAt: int)
    requires Consistent(c) && !Live(c, lookupAt) && InOrder(lookupAt, before) && lookupAt <= claimAt <= saveAt < claimAt + ttl
    requires forall i :: 0 <= i < |before| ==> !Acquires(before[i].op) && !Wipes(before[i].op)
    requires forall i :: 0 <= i < |between| ==> between[i].op.who != who && between[i].now < claimAt + ttl
    ensures var t := TakeOver(c, ttl, who, before, claimAt, between, saveAt);
            if Load(c).Failure? then t == NoSnapshot
            else t == Installed(c.value.state.value, Some(c.value.(owner := who, expiresAt := claimAt + ttl)))
  {
    if Load(c).Success? {
      RowFrozen(c, ttl, before, lookupAt);
      var r := Claim(c, who, ttl, claimAt).row;
      OthersKeptOut(r, ttl, who, between);
    }
  }

  // So a room whose last snapshot is stored comes back, in an undisturbed
  // takeover, as the room it was.
  lemma TakeoverRevivesRoom(s: RoomState, c: Cell, ttl: int, who: Instance, lookupAt: int, before: seq<Call>, claimAt: int,
                            between: seq<Call>, saveAt: int, deck: Deck, e: Entropy)
    requires Valid(s) && Generated(s.code) && !JudgeGone(s) && c.Some? && c.value.state == Some(Persist(s))
    requires Consistent(c) && !Live(c, lookupAt) && InOrder(lookupAt, before) && lookupAt <= claimAt <= saveAt < claimAt + ttl
    requires forall i :: 0 <= i < |before| ==> !Acquires(before[i].op) && !Wipes(before[i].op)
    requires forall i :: 0 <= i < |between| ==> between[i].op.who != who && between[i].now < claimAt + ttl
    ensures var t := TakeOver(c, ttl, who, before, claimAt, between, saveAt);
            t.Installed? && RoomRestore.Restore(t.state, deck, e, saveAt) == Success(Revived(s, deck, e, saveAt))
  {
    hide Valid, Generated, JudgeGone, Persist, Consistent, RoomRestore.Restore, Revived;
    TakeoverResumesNewest(c, ttl, who, lookupAt, before, claimAt, between, saveAt);
    RoundTrip(s, deck, e, saveAt);
  }

  // --- other requests of the same instance in between ---

  // The instance saves a later revision than this, of the room another of its
  // requests has installed.
  ghost predicate SavesBeyond(calls: seq<Call>, who: Instance, revision: nat) {
    exists i :: 0 <= i < |calls| && calls[i].op.SaveOp? && calls[i].op.who == who && calls[i].op.state.revision > revision
  }

  ghost predicate KeepsLease(op: Op, who: Instance) {
    op != ReleaseOp(who) && op != DeleteOp(who) && op != ResetOp(who)
  }

  lemma OwnCall(c: Cell, ttl: int, who: Instance, call: Call, until: int, revision: nat)
    requires c.Some? && c.value.owner == who && c.value.expiresAt >= until && c.value.state.Some?
    requires call.now < until <= call.now + ttl && KeepsLease(call.op, who)
    ensures var d := Apply(c, ttl, call).row;
            d.Some? && d.value.owner == who && d.value.expiresAt >= until && d.value.state.Some?
            && (d.value.version > revision
                <==> c.value.version > revision || (call.op.SaveOp? && call.op.who == who && call.op.state.revision > revision))
  {
  }

  lemma {:induction false} AmidOwnRequests(c: Cell, ttl: int, who: Instance, calls: seq<Call>, until: int, revision: nat)
    requires c.Some? && c.value.owner == who && c.value.expiresAt >= until && c.value.state.Some?
    requires forall i :: 0 <= i < |calls| ==> calls[i].now < until <= calls[i].now + ttl && KeepsLease(calls[i].op, who)
    ensures var d := End(c, ttl, calls);
            d.Some? && d.value.owner == who && d.value.expiresAt >= until && d.value.state.Some?
            && (d.value.version > revision <==> c.value.version > revision || SavesBeyond(calls, who, revision))
    decreases |calls|
  {
    hide KeepsLease;
    if calls != [] {
      OwnCall(c, ttl, who, calls[0], until, revision);
      var rest := calls[1..];
      assert forall i :: 0 <= i < |rest| ==> rest[i] == calls[i + 1];
      AmidOwnRequests(Apply(c, ttl, calls[0]).row, ttl, who, rest, until, revision);
      BeyondCons(calls, who, revision);
    }
  }

  lemma BeyondCons(calls: seq<Call>, who: Instance, revision: nat)
    requires calls != []
    ensures SavesBeyond(calls, who, revision)
       <==> (calls[0].op.SaveOp? && calls[0].op.who == who && calls[0].op.state.revision > revision) || SavesBeyond(calls[1..], who, revision)
  {
    assert forall i :: 0 <= i < |calls[1..]| ==> calls[1..][i] == calls[i + 1];
    if SavesBeyond(calls, who, revision) {
      var i :| 0 <= i < |calls| && calls[i].op.SaveOp? && calls[i].op.who == who && calls[i].op.state.revision > revision;
      assert i > 0 ==> calls[1..][i - 1] == calls[i];
    }
    if SavesBeyond(calls[1..], who, revision) {
      var i :| 0 <= i < |calls[1..]| && calls[1..][i].op.SaveOp? && calls[1..][i].op.who == who && calls[1..][i].op.state.revision > revision;
      assert calls[i + 1] == calls[1..][i];
    }
  }

  // Between the claim and the save other requests of the same instance may find the
  // lease its own, install the room, play on and save. The takeover still reports
  // success under the same lease; what it leaves stored is the snapshot it loaded
  // exactly when none of those saves was of a later revision, and that later one
  // otherwise.
  lemma TakeoverAmidOwnRequests(c: Cell, ttl: int, who: Instance, lookupAt: int, before: seq<Call>, claimAt: int,
                                between: seq<Call>, saveAt: int)
    requires Consistent(c) && Load(c).Success? && !Live(c, lookupAt) && InOrder(lookupAt, before)
    requires lookupAt <= claimAt <= saveAt < claimAt + ttl
    requires forall i :: 0 <= i < |before| ==> !Acquires(before[i].op) && !Wipes(before[i].op)
    requires forall i :: 0 <= i < |between| ==> claimAt <= between[i].now < claimAt + ttl && KeepsLease(between[i].op, who)
    ensures var t := TakeOver(c, ttl, who, before, claimAt, between, saveAt); var loaded := Load(c).value;
            t.Installed? && t.state == loaded && Owns(t.row, who, saveAt) && t.row.value.state.Some?
            && t.row.value.state.value.revision >= loaded.revision
            && (t.row.value.state == Some(loaded) <==> !SavesBeyond(between, who, loaded.revision))
  {
    RowFrozen(c, ttl, before, lookupAt);
    var r := Claim(c, who, ttl, claimAt).row;
    AmidOwnRequests(r, ttl, who, between, claimAt + ttl, Load(c).value.revision);
    StaysConsistent(r, ttl, between);
  }

  // If one of them gives the lease back instead, as a request does that could not
  // install the room, the takeover comes to nothing, unless the instance claims the
  // code yet again.
  lemma OwnReleaseStopsTakeover(c: Cell, ttl: int, who: Instance, before: seq<Call>, claimAt: int, first: seq<Call>, at: int,
                                later: seq<Call>, saveAt: int)
    requires InOrder(at, later) && at <= saveAt && forall i :: 0 <= i < |later| ==> later[i].now <= saveAt
    requires !AcquiredBy(later, who)
    ensures !TakeOver(c, ttl, who, before, claimAt, first + [Call(at, ReleaseOp(who))] + later, saveAt).Installed?
  {
    if Load(c).Success? && Claim(End(c, ttl, before), who, ttl, claimAt).error.None? {
      var r := Claim(End(c, ttl, before), who, ttl, claimAt).row;
      var release := Call(at, ReleaseOp(who));
      EndConcat(r, ttl, first + [release], later);
      EndConcat(r, ttl, first, [release]);
      var m := End(r, ttl, first);
      assert [release][1..] == [] && End(m, ttl, [release]) == End(Apply(m, ttl, release).row, ttl, []);
      assert !Owns(Apply(m, ttl, release).row, who, at);
      NotOwnedWithoutAcquiring(Apply(m, ttl, release).row, ttl, later, who, at, saveAt);
    }
  }

  // --- out of date ---

  // Between wipes, what is installed is out of date exactly when someone stored a
  // later revision after the snapshot was loaded.
  lemma StaleExactlyWhenOvertaken(c: Cell, ttl: int, who: Instance, before: seq<Call>, claimAt: int, between: seq<Call>, saveAt: int)
    requires Consistent(c)
    requires TakeOver(c, ttl, who, before, claimAt, between, saveAt).Installed?
    requires forall i :: 0 <= i < |before| ==> !Wipes(before[i].op)
    requires forall i :: 0 <= i < |between| ==> !Wipes(between[i].op)
    ensures var t := TakeOver(c, ttl, who, before, claimAt, between, saveAt);
            t.row.Some? && t.row.value.state.Some? && t.row.value.state.value.revision >= t.state.revision
            && (t.row.value.state != Some(t.state)
                <==> RowAtSave(c, ttl, who, before, claimAt, between).value.version > c.value.version)
  {
    RevisionsGrow(c, ttl, before);
    var r := Claim(End(c, ttl, before), who, ttl, claimAt).row;
    RevisionsGrow(r, ttl, between);
    StaysConsistent(c, ttl, before);
    StaysConsistent(r, ttl, between);
    InstalledIsStored(c, ttl, who, before, claimAt, between, saveAt);
  }

  // --- a run in which it goes wrong ---

  function SomeState(revision: nat): PersistedRoomState {
    PersistedRoomState(ROOM_STATE_VERSION, revision, "ABCD", Lobby, 1, None, 0, None, 0, 0, 0,
                       DEFAULT_SCORE_LIMIT, DEFAULT_SUBMIT_SECS, DEFAULT_MAX_PLAYERS, Party, [], [], [], [], [], 1, 1)
  }

  // Instance 1 is gone. Instance 3 looks the room up and loads revision 5;
  // instance 2 claims the room, plays on to revision 9, is told it is stored, and
  // hands the room back; instance 3 then claims it too and installs revision 5,
  // with no step reporting an error.
  lemma OlderSnapshotResumes(ttl: int)
    requires ttl > 0
    ensures var c := Some(Row(1, 10, Some(SomeState(5)), 5));
            var calls := [Call(20, ClaimOp(2)), Call(20, SaveOp(2, SomeState(9))), Call(20, ReleaseOp(2))];
            !Live(c, 20) && Consistent(c) && InOrder(20, calls)
            && Save(End(c, ttl, calls[..1]), 2, SomeState(9), 20).error.None?
            && TakeOver(c, ttl, 3, calls, 20, [], 20) == Installed(SomeState(5), Some(Row(3, 20 + ttl, Some(SomeState(9)), 9)))
  {
    var c := Some(Row(1, 10, Some(SomeState(5)), 5));
    var calls := [Call(20, ClaimOp(2)), Call(20, SaveOp(2, SomeState(9))), Call(20, ReleaseOp(2))];
    var a := Some(Row(2, 20 + ttl, Some(SomeState(5)), 5));
    var b := Some(Row(2, 20 + ttl, Some(SomeState(9)), 9));
    var d := Some(Row(2, 20, Some(SomeState(9)), 9));
    assert calls[..1] == [calls[0]];
    assert End(c, ttl, calls[..1]) == a by { assert End(a, ttl, []) == a; }
    assert calls[1..] == [calls[1], calls[2]] && calls[1..][1..] == [calls[2]];
    assert End(d, ttl, []) == d;
    assert End(b, ttl, [calls[2]]) == d;
    assert End(a, ttl, calls[1..]) == d;
    assert End(c, ttl, calls) == d;
  }

  // From then on the owner's saves are acknowledged and stored nowhere until its
  // revision has caught up with the one it overlooked.
  lemma {:induction false} SavesGoNowhere(c: Cell, ttl: int, who: Instance, calls: seq<Call>)
    requires c.Some? && c.value.owner == who
    requires forall i :: 0 <= i < |calls| ==>
               calls[i].now < c.value.expiresAt && calls[i].op.SaveOp? && calls[i].op.who == who
               && calls[i].op.state.revision < c.value.version
    ensures End(c, ttl, calls) == c
    ensures forall i :: 0 <= i < |calls| ==> Apply(End(c, ttl, calls[..i]), ttl, calls[i]) == Reply(c, None)
    decreases |calls|
  {
    if calls != [] {
      assert Apply(c, ttl, calls[0]) == Reply(c, None);
      SavesGoNowhere(c, ttl, who, calls[1..]);
      forall i | 0 <= i < |calls|
        ensures Apply(End(c, ttl, calls[..i]), ttl, calls[i]) == Reply(c, None)
      {
        if i == 0 {
          assert calls[..0] == [];
        } else {
          assert calls[..i][0] == calls[0] && calls[..i][1..] == calls[1..][..i - 1];
          assert calls[1..][i - 1] == calls[i];
        }
      }
    }
  }
}
