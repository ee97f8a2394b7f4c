// Which instances have a room in memory, while its row is shared. Rooms are opened
// by CreateRoom and brought back by GetRoom, several statements each, and leases
// are renewed by heartbeats that come at different times, so for a while two
// instances can hold the same room (backend/internal/realtime/manager.go).
module RoomHolders {
  import opened Wrappers
  import opened RoomTypes
  import opened RoomLeases
  import opened Cards
  import Rules = RoomRules
  import Invariant = RoomInvariant
  import RoundPreservation
  import RoomRestore

  // A request under way, by what it does next. A room is put into memory by
  // CreateRoom (ToReset, ToOpen, ToSaveFirst) and by GetRoom, after a claim (ToLoad,
  // ToClaim, ToSaveBack, ToInstall) or under the instance's own lease (ToLoadOwn,
  // ToInstall).
  datatype Task =
    | ToReset(who: Instance, state: PersistedRoomState)
    | ToOpen(who: Instance, state: PersistedRoomState)
    | ToSaveFirst(who: Instance, state: PersistedRoomState)
    | ToLoad(who: Instance)
    | ToClaim(who: Instance, state: PersistedRoomState)
    | ToSaveBack(who: Instance, state: PersistedRoomState)
    | ToLoadOwn(who: Instance)
    | ToInstall(who: Instance, state: PersistedRoomState)
    | ToRelease(who: Instance)

  // `lease` is until when each instance was last told it owns the row, `holds` the
  // instances that have the room in memory.
  datatype World = World(row: Cell, lease: map<Instance, int>, holds: set<Instance>, tasks: multiset<Task>, clock: int)

  datatype Event =
    // CreateRoom draws this code and reserves it; `state` is what the new room's
    // first snapshot will be.
    | Creates(who: Instance, state: PersistedRoomState, now: int)
    // GetRoom looks the code up.
    | Looks(who: Instance, now: int)
    // A request takes its next step, or is given up, with a release or without.
    | Goes(task: Task, now: int)
    | Fails(task: Task, releases: bool, now: int)
    // Heartbeats, saves of a room in play, and the statements of evictions and
    // shutdowns. The room of an instance whose heartbeat is refused is revoked.
    | Called(call: Call)
    // Evicted or shut down.
    | Dropped(who: Instance, now: int)

  function Time(e: Event): int {
    if e.Called? then e.call.now else e.now
  }

  function Who(e: Event): Instance {
    match e
    case Goes(task, _) => task.who
    case Fails(task, _, _) => task.who
    case Called(call) => call.op.who
    case _ => e.who
  }

  // RestoreRoom accepts the snapshot. What deck it is given makes no difference.
  ghost predicate Restorable(state: PersistedRoomState) {
    exists deck: Deck, e: Entropy, now: int :: RoomRestore.Restore(state, deck, e, now).Success?
  }

  ghost predicate CanStep(w: World, e: Event) {
    w.clock <= Time(e)
    && match e
       case Goes(task, _) => task in w.tasks && (task.ToInstall? ==> Restorable(task.state))
       case Fails(task, _, _) => task in w.tasks
       case Called(call) => call.op.HeartbeatOp? || call.op.SaveOp? || call.op.ReleaseOp? || call.op.DeleteOp?
       case _ => true
  }

  predicate Renews(op: Op) {
    op.ReserveOp? || op.ClaimOp? || op.HeartbeatOp?
  }

  function Told(lease: map<Instance, int>, ttl: int, call: Call, refused: bool): map<Instance, int> {
    if refused then (if call.op.HeartbeatOp? then lease - {call.op.who} else lease)
    else if Renews(call.op) then lease[call.op.who := call.now + ttl]
    else if call.op.ReleaseOp? || call.op.DeleteOp? then lease - {call.op.who}
    else lease
  }

  predicate Refused(w: World, ttl: int, call: Call) {
    Apply(w.row, ttl, call).error.Some?
  }

  // A statement on the row, and what the instance learns from the reply.
  function Done(w: World, ttl: int, call: Call): World {
    w.(row := Apply(w.row, ttl, call).row, lease := Told(w.lease, ttl, call, Refused(w, ttl, call)), clock := call.now)
  }

  function With(w: World, task: Task): World {
    w.(tasks := w.tasks + multiset{task})
  }

  function Without(w: World, task: Task): World {
    w.(tasks := w.tasks - multiset{task})
  }

  function Next(w: World, ttl: int, task: Task, now: int): World {
    match task
    case ToReset(who, state) => With(Done(w, ttl, Call(now, ResetOp(who))), ToOpen(who, state))
    case ToOpen(who, state) =>
      if who in w.holds then With(w.(clock := now), ToRelease(who))
      else With(w.(holds := w.holds + {who}, clock := now), ToSaveFirst(who, state))
    case ToSaveFirst(who, state) =>
      var call := Call(now, SaveOp(who, state));
      if Refused(w, ttl, call) then With(Done(w, ttl, call).(holds := w.holds - {who}), ToRelease(who)) else Done(w, ttl, call)
    case ToLoad(who) =>
      var t := w.(clock := now);
      if Load(w.row).Success? then With(t, ToClaim(who, Load(w.row).value)) else t
    case ToClaim(who, state) =>
      var call := Call(now, ClaimOp(who));
      if Refused(w, ttl, call) then Done(w, ttl, call) else With(Done(w, ttl, call), ToSaveBack(who, state))
    case ToSaveBack(who, state) =>
      var call := Call(now, SaveOp(who, state));
      With(Done(w, ttl, call), if Refused(w, ttl, call) then ToRelease(who) else ToInstall(who, state))
    case ToLoadOwn(who) =>
      var t := w.(clock := now);
      if Load(w.row).Success? then With(t, ToInstall(who, Load(w.row).value)) else t
    case ToInstall(who, _) => w.(holds := w.holds + {who}, clock := now)
    case ToRelease(who) => Done(w, ttl, Call(now, ReleaseOp(who)))
  }

  function Step(w: World, ttl: int, e: Event): World {
    match e
    case Creates(who, state, now) =>
      var call := Call(now, ReserveOp(who));
      if Refused(w, ttl, call) then Done(w, ttl, call) else With(Done(w, ttl, call), ToReset(who, state))
    case Looks(who, now) =>
      if Owns(w.row, who, now) then With(w.(lease := w.lease[who := w.row.value.expiresAt], clock := now), ToLoadOwn(who))
      else if Live(w.row, now) then w.(clock := now)
      else With(w.(clock := now), ToLoad(who))
    case Goes(task, now) => Next(Without(w, task), ttl, task, now)
    case Fails(task, releases, now) =>
      var t := Without(w, task).(clock := now);
      if releases then With(t, ToRelease(task.who)) else t
    case Called(call) =>
      var t := Done(w, ttl, call);
      if call.op.HeartbeatOp? && Refused(w, ttl, call) then t.(holds := w.holds - {call.op.who}) else t
    case Dropped(who, now) => w.(holds := w.holds - {who}, clock := now)
  }

  ghost predicate Run(w: World, ttl: int, es: seq<Event>)
    decreases |es|
  {
    es == [] || (CanStep(w, es[0]) && Run(Step(w, ttl, es[0]), ttl, es[1..]))
  }

  function End(w: World, ttl: int, es: seq<Event>): World
    decreases |es|
  {
    if es == [] then w else End(Step(w, ttl, es[0]), ttl, es[1..])
  }

  // Nobody has the room yet, whatever the row says.
  function Start(row: Cell, clock: int): World {
    World(row, map[], {}, multiset{}, clock)
  }

  // --- leases ---

  predicate Current(w: World, who: Instance) {
    who in w.lease && w.lease[who] > w.clock
  }

  // An instance that was told of a lease not yet over still has it.
  ghost predicate Informed(w: World) {
    forall who :: Current(w, who) ==> w.row.Some? && w.row.value.owner == who && w.row.value.expiresAt == w.lease[who]
  }

  lemma CallInformed(w: World, ttl: int, call: Call)
    requires Informed(w) && w.clock <= call.now
    ensures Informed(Done(w, ttl, call))
  {
    var t := Done(w, ttl, call);
    forall who | Current(t, who)
      ensures t.row.Some? && t.row.value.owner == who && t.row.value.expiresAt == t.lease[who]
    {
      assert who in w.lease && t.lease[who] == w.lease[who] ==> Current(w, who);
    }
  }

  // Who holds the room and what is under way make no difference to it.
  lemma LaterInformed(w: World, t: World)
    requires Informed(w) && t.row == w.row && t.lease == w.lease && w.clock <= t.clock
    ensures Informed(t)
  {
    assert forall who :: Current(t, who) ==> Current(w, who);
  }

  lemma NextInformed(w: World, ttl: int, task: Task, now: int)
    requires Informed(w) && w.clock <= now
    ensures Informed(Next(w, ttl, task, now))
  {
    hide Done, Informed, Refused;
    match task
    case ToReset(who, _) =>
      CallInformed(w, ttl, Call(now, ResetOp(who)));
      LaterInformed(Done(w, ttl, Call(now, ResetOp(who))), Next(w, ttl, task, now));
    case ToSaveFirst(who, state) =>
      CallInformed(w, ttl, Call(now, SaveOp(who, state)));
      LaterInformed(Done(w, ttl, Call(now, SaveOp(who, state))), Next(w, ttl, task, now));
    case ToClaim(who, _) =>
      CallInformed(w, ttl, Call(now, ClaimOp(who)));
      LaterInformed(Done(w, ttl, Call(now, ClaimOp(who))), Next(w, ttl, task, now));
    case ToSaveBack(who, state) =>
      CallInformed(w, ttl, Call(now, SaveOp(who, state)));
      LaterInformed(Done(w, ttl, Call(now, SaveOp(who, state))), Next(w, ttl, task, now));
    case ToRelease(who) => CallInformed(w, ttl, Call(now, ReleaseOp(who)));
    case _ => LaterInformed(w, Next(w, ttl, task, now));
  }

  lemma StepInformed(w: World, ttl: int, e: Event)
    requires Informed(w) && CanStep(w, e)
    ensures Informed(Step(w, ttl, e))
  {
    hide Done, Informed, Refused, Next, Restorable;
    match e
    case Creates(who, _, now) =>
      CallInformed(w, ttl, Call(now, ReserveOp(who)));
      LaterInformed(Done(w, ttl, Call(now, ReserveOp(who))), Step(w, ttl, e));
    case Looks(who, now) => LookInformed(w, ttl, who, now);
    case Goes(task, now) =>
      LaterInformed(w, Without(w, task));
      NextInformed(Without(w, task), ttl, task, now);
    case Called(call) =>
      CallInformed(w, ttl, call);
      LaterInformed(Done(w, ttl, call), Step(w, ttl, e));
    case _ => LaterInformed(w, Step(w, ttl, e));
  }

  lemma LookInformed(w: World, ttl: int, who: Instance, now: int)
    requires Informed(w) && w.clock <= now
    ensures Informed(Step(w, ttl, Looks(who, now)))
  {
    var t := Step(w, ttl, Looks(who, now));
    forall x | Current(t, x)
      ensures t.row.Some? && t.row.value.owner == x && t.row.value.expiresAt == t.lease[x]
    {
      assert x != who ==> Current(w, x);
      assert !Owns(w.row, who, now) ==> Current(w, x);
    }
  }

  lemma {:induction false} RunInformed(w: World, ttl: int, es: seq<Event>)
    requires Informed(w) && Run(w, ttl, es)
    ensures Informed(End(w, ttl, es))
    decreases |es|
  {
    hide Informed, CanStep, Step;
    if es != [] {
      StepInformed(w, ttl, es[0]);
      RunInformed(Step(w, ttl, es[0]), ttl, es[1..]);
    }
  }

  // In every run, of all the instances that hold the room at most one has a lease
  // it was told of and that is not over: when two hold it, one of them has had no
  // heartbeat accepted for a whole term, and its next one is refused and takes the
  // room away.
  lemma OneCurrentHolder(row: Cell, clock: int, ttl: int, es: seq<Event>, a: Instance, b: Instance)
    requires Run(Start(row, clock), ttl, es) && a != b
    ensures var w := End(Start(row, clock), ttl, es);
            !(Current(w, a) && Current(w, b))
            && (Current(w, a) ==> forall now :: w.clock <= now < w.lease[a] ==>
                  b !in Step(w, ttl, Called(Call(now, HeartbeatOp(b)))).holds)
  {
    hide CanStep, Step, Run, End;
    RunInformed(Start(row, clock), ttl, es);
    var w := End(Start(row, clock), ttl, es);
    if Current(w, a) {
      forall now | w.clock <= now < w.lease[a]
        ensures b !in Step(w, ttl, Called(Call(now, HeartbeatOp(b)))).holds
      {
        HeartbeatRefused(w, ttl, now, b);
      }
    }
  }

  lemma HeartbeatRefused(w: World, ttl: int, now: int, who: Instance)
    requires !Owns(w.row, who, now)
    ensures Step(w, ttl, Called(Call(now, HeartbeatOp(who)))).holds == w.holds - {who}
  {
  }

  // --- when everyone keeps to its term ---

  // A statement by which an instance gives its lease up.
  ghost predicate GivesUp(e: Event, who: Instance) {
    (e.Called? && (e.call.op == ReleaseOp(who) || e.call.op == DeleteOp(who))) || (e.Goes? && e.task == ToRelease(who))
  }

  predicate PutsIn(e: Event) {
    e.Goes? && (e.task.ToInstall? || e.task.ToOpen?)
  }

  // Whoever holds the room, and whoever puts it into memory, is within the term it
  // was last told of; no holder gives its lease up.
  ghost predicate WithinTerms(w: World, e: Event) {
    (forall h :: h in w.holds ==> h in w.lease && Time(e) < w.lease[h] && !GivesUp(e, h))
    && (PutsIn(e) ==> e.task.who in w.lease && Time(e) < w.lease[e.task.who])
  }

  ghost predicate AllWithinTerms(w: World, ttl: int, es: seq<Event>)
    decreases |es|
  {
    es == [] || (WithinTerms(w, es[0]) && AllWithinTerms(Step(w, ttl, es[0]), ttl, es[1..]))
  }

  ghost predicate AtMostOne(w: World) {
    forall a, b :: a in w.holds && b in w.holds ==> a == b
  }

  ghost predicate NeverTwo(w: World, ttl: int, es: seq<Event>)
    decreases |es|
  {
    AtMostOne(w) && (es == [] || NeverTwo(Step(w, ttl, es[0]), ttl, es[1..]))
  }

  ghost predicate HoldersCurrent(w: World) {
    forall h :: h in w.holds ==> Current(w, h)
  }

  // A holder's lease survives a statement made before it is over, but for its own
  // release or delete, or a heartbeat that is refused.
  lemma CallCurrent(w: World, ttl: int, call: Call, h: Instance)
    requires 0 < ttl && Informed(w) && Current(w, h) && w.clock <= call.now < w.lease[h]
    requires call.op != ReleaseOp(h) && call.op != DeleteOp(h)
    ensures Current(Done(w, ttl, call), h)
    ensures call.op.who == h && (call.op.HeartbeatOp? || call.op.SaveOp?) ==> !Refused(w, ttl, call)
  {
  }

  lemma NextCurrent(w: World, ttl: int, task: Task, now: int, h: Instance)
    requires 0 < ttl && Informed(w) && Current(w, h) && w.clock <= now < w.lease[h] && task != ToRelease(h)
    ensures Current(Next(w, ttl, task, now), h)
  {
    hide Done, Informed, Refused;
    match task
    case ToReset(who, _) => CallCurrent(w, ttl, Call(now, ResetOp(who)), h);
    case ToSaveFirst(who, state) => CallCurrent(w, ttl, Call(now, SaveOp(who, state)), h);
    case ToClaim(who, _) => CallCurrent(w, ttl, Call(now, ClaimOp(who)), h);
    case ToSaveBack(who, state) => CallCurrent(w, ttl, Call(now, SaveOp(who, state)), h);
    case ToRelease(who) => CallCurrent(w, ttl, Call(now, ReleaseOp(who)), h);
    case _ =>
  }

  lemma StepCurrent(w: World, ttl: int, e: Event, h: Instance)
    requires 0 < ttl && Informed(w) && CanStep(w, e) && Current(w, h) && Time(e) < w.lease[h] && !GivesUp(e, h)
    ensures Current(Step(w, ttl, e), h)
  {
    hide Done, Informed, Refused, Next, Restorable;
    match e
    case Creates(who, _, now) => CallCurrent(w, ttl, Call(now, ReserveOp(who)), h);
    case Looks(who, now) => LookCurrent(w, ttl, who, now, h);
    case Goes(task, now) =>
      LaterInformed(w, Without(w, task));
      NextCurrent(Without(w, task), ttl, task, now, h);
    case Called(call) => CallCurrent(w, ttl, call, h);
    case _ =>
  }

  lemma LookCurrent(w: World, ttl: int, who: Instance, now: int, h: Instance)
    requires Informed(w) && Current(w, h) && w.clock <= now < w.lease[h]
    ensures Current(Step(w, ttl, Looks(who, now)), h)
  {
  }

  lemma NewHolders(w: World, ttl: int, e: Event, h: Instance)
    requires h in Step(w, ttl, e).holds
    ensures h in w.holds || (PutsIn(e) && e.task.who == h)
  {
    hide Apply, Told;
  }

  lemma StepHolders(w: World, ttl: int, e: Event)
    requires 0 < ttl && Informed(w) && CanStep(w, e) && HoldersCurrent(w) && WithinTerms(w, e)
    ensures HoldersCurrent(Step(w, ttl, e))
  {
    hide Informed, Step, CanStep;
    forall h | h in Step(w, ttl, e).holds
      ensures Current(Step(w, ttl, e), h)
    {
      NewHolders(w, ttl, e, h);
      NotBefore(w, e);
      StepCurrent(w, ttl, e, h);
    }
  }

  lemma NotBefore(w: World, e: Event)
    requires CanStep(w, e)
    ensures w.clock <= Time(e)
  {
    hide Restorable;
  }

  lemma CurrentIsOne(w: World)
    requires Informed(w) && HoldersCurrent(w)
    ensures AtMostOne(w)
  {
  }

  lemma {:induction false} HoldersOneByOne(w: World, ttl: int, es: seq<Event>)
    requires 0 < ttl && Informed(w) && HoldersCurrent(w) && Run(w, ttl, es) && AllWithinTerms(w, ttl, es)
    ensures NeverTwo(w, ttl, es)
    decreases |es|
  {
    hide Informed, HoldersCurrent, CanStep, Step, AtMostOne, WithinTerms;
    CurrentIsOne(w);
    if es != [] {
      StepInformed(w, ttl, es[0]);
      StepHolders(w, ttl, es[0]);
      HoldersOneByOne(Step(w, ttl, es[0]), ttl, es[1..]);
    }
  }

  // As long as instances hold the room and put it into memory only within the terms
  // they were told of, no two ever hold it, whatever else they do.
  lemma AtMostOneHolder(row: Cell, clock: int, ttl: int, es: seq<Event>)
    requires 0 < ttl && Run(Start(row, clock), ttl, es) && AllWithinTerms(Start(row, clock), ttl, es)
    ensures NeverTwo(Start(row, clock), ttl, es)
  {
    HoldersOneByOne(Start(row, clock), ttl, es);
  }

  // --- one instance that is in time ---

  // Past the reservation, the claim, or the lookup that found its own lease.
  predicate Acquired(task: Task) {
    !task.ToLoad? && !task.ToClaim? && !task.ToRelease?
  }

  // The instance does not hold the room, and nothing of its own is about to.
  ghost predicate Idle(w: World, who: Instance) {
    who !in w.holds && forall task :: task in w.tasks && task.who == who ==> !Acquired(task)
  }

  // The instance does not give the room up, and whatever happens, happens before
  // the term it was last told of is over: its heartbeats are in time.
  ghost predicate Timely(w: World, ttl: int, es: seq<Event>, who: Instance)
    decreases |es|
  {
    es == [] || (InTime(w, es[0], who) && Timely(Step(w, ttl, es[0]), ttl, es[1..], who))
  }

  ghost predicate InTime(w: World, e: Event, who: Instance) {
    who in w.lease && Time(e) < w.lease[who] && e != Dropped(who, Time(e)) && !GivesUp(e, who)
  }

  // A request of an instance's own takes the room from it only by a first save that is
  // refused.
  lemma NextHolds(w: World, ttl: int, task: Task, now: int, who: Instance)
    requires who in w.holds
    requires task.ToSaveFirst? && task.who == who ==> !Refused(w, ttl, Call(now, SaveOp(who, task.state)))
    ensures who in Next(w, ttl, task, now).holds
  {
    hide Refused, Told, Apply;
  }

  lemma KeepsHolding(w: World, ttl: int, e: Event, who: Instance)
    requires 0 < ttl && Informed(w) && CanStep(w, e) && who in w.holds && Current(w, who) && InTime(w, e, who)
    ensures who in Step(w, ttl, e).holds && Current(Step(w, ttl, e), who)
  {
    hide Restorable, Done, Informed, Told, Refused, Next;
    StepCurrent(w, ttl, e, who);
    SameTasksOfCall(w, ttl);
    match e
    case Called(call) => CallCurrent(w, ttl, call, who);
    case Goes(task, now) =>
      var u := Without(w, task);
      LaterInformed(w, u);
      if task.ToSaveFirst? && task.who == who {
        CallCurrent(u, ttl, Call(now, SaveOp(who, task.state)), who);
      }
      NextHolds(u, ttl, task, now, who);
    case _ =>
  }

  lemma LiveRefuses(w: World, ttl: int, who: Instance, other: Instance, now: int)
    requires Informed(w) && Current(w, who) && w.clock <= now < w.lease[who] && other != who
    ensures !Owns(w.row, other, now) && Live(w.row, now)
    ensures Refused(w, ttl, Call(now, ReserveOp(other))) && Refused(w, ttl, Call(now, ClaimOp(other)))
  {
  }

  // A step adds requests of its own instance alone.
  lemma NextTasks(w: World, ttl: int, task: Task, now: int, x: Task)
    requires x in Next(w, ttl, task, now).tasks
    ensures x in w.tasks || x.who == task.who
    ensures task.ToLoad? || task.ToRelease? || (task.ToClaim? && Refused(w, ttl, Call(now, ClaimOp(task.who)))) ==> x in w.tasks || !Acquired(x)
  {
    hide Done, Refused, Told, Apply;
    SameTasksOfCall(w, ttl);
  }

  lemma StaysIdle(w: World, ttl: int, e: Event, who: Instance, other: Instance)
    requires Informed(w) && CanStep(w, e) && Current(w, who) && Time(e) < w.lease[who] && other != who && Idle(w, other)
    ensures Idle(Step(w, ttl, e), other)
  {
    hide Restorable, Done, Informed, Told, Refused, Apply, Live, Owns, Next;
    var t := Step(w, ttl, e);
    LiveRefuses(w, ttl, who, other, Time(e));
    if e.Goes? {
      var u := Without(w, e.task);
      LaterInformed(w, u);
      LiveRefuses(u, ttl, who, other, e.now);
      forall x | x in t.tasks && x.who == other
        ensures !Acquired(x)
      {
        NextTasks(u, ttl, e.task, e.now, x);
        assert x in u.tasks ==> x in w.tasks;
      }
    } else {
      SameTasksOfCall(w, ttl);
    }
    if other in t.holds {
      NewHolders(w, ttl, e, other);
    }
  }

  lemma SameTasksOfCall(w: World, ttl: int)
    ensures forall call: Call :: Done(w, ttl, call).tasks == w.tasks && Done(w, ttl, call).holds == w.holds
  {
  }

  // An instance whose heartbeats are in time keeps the room and the lease, and no
  // other that is not already about to comes to hold the room.
  lemma {:induction false} InTimeNobodyElse(w: World, ttl: int, es: seq<Event>, who: Instance, other: Instance)
    requires 0 < ttl && Informed(w) && Run(w, ttl, es) && who in w.holds && Current(w, who) && Timely(w, ttl, es, who)
    requires other != who && Idle(w, other)
    ensures var t := End(w, ttl, es);
            who in t.holds && Owns(t.row, who, t.clock) && Idle(t, other) && other !in t.holds
    decreases |es|
  {
    hide CanStep, Step, GivesUp, InTime, Idle;
    if es == [] {
      NotHolding(w, other);
    } else {
      TermLasts(w, es[0], who);
      StepInformed(w, ttl, es[0]);
      KeepsHolding(w, ttl, es[0], who);
      StaysIdle(w, ttl, es[0], who, other);
      InTimeNobodyElse(Step(w, ttl, es[0]), ttl, es[1..], who, other);
    }
  }

  lemma NotHolding(w: World, who: Instance)
    requires Idle(w, who)
    ensures who !in w.holds
  {
  }

  lemma TermLasts(w: World, e: Event, who: Instance)
    requires InTime(w, e, who)
    ensures who in w.lease && Time(e) < w.lease[who]
  {
  }

  // --- one instance that is not ---

  // The instance does nothing up to this instant: it misses its heartbeat.
  ghost predicate Silent(es: seq<Event>, who: Instance, now: int) {
    forall i :: 0 <= i < |es| ==> Time(es[i]) <= now && Who(es[i]) != who
  }

  // Its room stays in memory.
  lemma SilentHolds(w: World, ttl: int, e: Event, who: Instance)
    requires who in w.holds && Who(e) != who
    ensures who in Step(w, ttl, e).holds
  {
    hide Apply, Told;
  }

  // While its lease lasts, others do not change the row's owner or term.
  lemma CallByOthers(c: Cell, ttl: int, call: Call)
    requires c.Some? && call.op.who != c.value.owner && call.now < c.value.expiresAt
    ensures Apply(c, ttl, call).row == c && (Renews(call.op) || call.op.SaveOp? ==> Apply(c, ttl, call).error.Some?)
  {
  }

  lemma StepByOthers(w: World, ttl: int, e: Event)
    requires w.row.Some? && Who(e) != w.row.value.owner && Time(e) < w.row.value.expiresAt && CanStep(w, e)
    ensures Step(w, ttl, e).row == w.row
    ensures forall other :: other != w.row.value.owner && Idle(w, other) ==> Idle(Step(w, ttl, e), other)
  {
    hide Restorable, Told, Apply, Idle;
    var a := w.row.value.owner;
    forall call: Call | call.op.who != a && call.now < w.row.value.expiresAt
      ensures Apply(w.row, ttl, call).row == w.row && (Renews(call.op) || call.op.SaveOp? ==> Apply(w.row, ttl, call).error.Some?)
    {
      CallByOthers(w.row, ttl, call);
    }
    forall other | other != a && Idle(w, other)
      ensures Idle(Step(w, ttl, e), other)
    {
      IdleAmongOthers(w, ttl, e, other);
    }
  }

  lemma IdleAmongOthers(w: World, ttl: int, e: Event, other: Instance)
    requires w.row.Some? && Who(e) != w.row.value.owner && Time(e) < w.row.value.expiresAt && CanStep(w, e)
    requires other != w.row.value.owner && Idle(w, other)
    requires forall call: Call :: call.op.who != w.row.value.owner && call.now < w.row.value.expiresAt ==>
               Apply(w.row, ttl, call).row == w.row && (Renews(call.op) || call.op.SaveOp? ==> Apply(w.row, ttl, call).error.Some?)
    ensures Idle(Step(w, ttl, e), other)
  {
    hide Restorable, Told, Apply, Done, Next;
    var t := Step(w, ttl, e);
    SameTasksOfCall(w, ttl);
    if e.Goes? {
      var u := Without(w, e.task);
      forall x | x in t.tasks && x.who == other
        ensures !Acquired(x)
      {
        NextTasks(u, ttl, e.task, e.now, x);
        assert x in u.tasks ==> x in w.tasks;
      }
    }
    if other in t.holds {
      NewHolders(w, ttl, e, other);
    }
  }

  lemma {:induction false} NobodyTillLapsed(w: World, ttl: int, es: seq<Event>, a: Instance, b: Instance, now: int)
    requires w.row.Some? && w.row.value.owner == a && Idle(w, b) && a != b
    requires Run(w, ttl, es) && Silent(es, a, now) && now < w.row.value.expiresAt
    ensures b !in End(w, ttl, es).holds
    decreases |es|
  {
    hide CanStep, Step, Idle;
    if es == [] {
      NotHolding(w, b);
    } else {
      StepByOthers(w, ttl, es[0]);
      assert forall i :: 0 <= i < |es[1..]| ==> es[1..][i] == es[i + 1];
      NobodyTillLapsed(Step(w, ttl, es[0]), ttl, es[1..], a, b, now);
    }
  }

  lemma {:induction false} SilentHoldsOn(w: World, ttl: int, es: seq<Event>, who: Instance, now: int)
    requires who in w.holds && Silent(es, who, now)
    ensures who in End(w, ttl, es).holds
    decreases |es|
  {
    hide Step;
    if es != [] {
      SilentHolds(w, ttl, es[0], who);
      assert forall i :: 0 <= i < |es[1..]| ==> es[1..][i] == es[i + 1];
      SilentHoldsOn(Step(w, ttl, es[0]), ttl, es[1..], who, now);
    }
  }

  lemma RunCons(w: World, ttl: int, e: Event, es: seq<Event>)
    requires CanStep(w, e) && Run(Step(w, ttl, e), ttl, es)
    ensures Run(w, ttl, [e] + es) && End(w, ttl, [e] + es) == End(Step(w, ttl, e), ttl, es)
  {
    hide CanStep, Step;
    assert ([e] + es)[1..] == es;
  }

  lemma RunOut(w: World, ttl: int)
    ensures Run(w, ttl, []) && End(w, ttl, []) == w
  {
  }

  // CreateRoom as far as the new room, at this pace.
  function Creation(who: Instance, state: PersistedRoomState, at: int, pace: nat): seq<Event> {
    [Creates(who, state, at)] + ([Goes(ToReset(who, state), at + pace)] + ([Goes(ToOpen(who, state), at + 2 * pace)] + []))
  }

  lemma Opens(w: World, ttl: int, who: Instance, state: PersistedRoomState, at: int, pace: nat)
    requires 0 < ttl && w.clock <= at && !Live(w.row, at) && who !in w.holds
    ensures var es := Creation(who, state, at, pace); var t := End(w, ttl, es);
            Run(w, ttl, es) && t.holds == w.holds + {who} && t.row == Some(Row(who, at + ttl, None, 0))
            && ToSaveFirst(who, state) in t.tasks && t.clock == at + 2 * pace
  {
    hide Restorable, Run, End;
    var e0, e1, e2 := Creates(who, state, at), Goes(ToReset(who, state), at + pace), Goes(ToOpen(who, state), at + 2 * pace);
    var w1 := Step(w, ttl, e0);
    var w2 := Step(w1, ttl, e1);
    var w3 := Step(w2, ttl, e2);
    RunOut(w3, ttl);
    RunCons(w2, ttl, e2, []);
    RunCons(w1, ttl, e1, [e2] + []);
    RunCons(w, ttl, e0, [e1] + ([e2] + []));
  }

  // When the holder misses its heartbeat, another instance can come to hold the room
  // beside it by some instant exactly when the holder's lease is over by then.
  lemma SharedExactlyWhenLapsed(w: World, ttl: int, a: Instance, b: Instance, now: int, state: PersistedRoomState)
    requires 0 < ttl && w.row.Some? && w.row.value.owner == a && a in w.holds && a != b && Idle(w, b) && w.clock <= now
    ensures (exists es :: Run(w, ttl, es) && Silent(es, a, now) && a in End(w, ttl, es).holds && b in End(w, ttl, es).holds)
       <==> w.row.value.expiresAt <= now
  {
    hide Run, End, Idle;
    if w.row.value.expiresAt <= now {
      NotHolding(w, b);
      Opens(w, ttl, b, state, now, 0);
      var es := Creation(b, state, now, 0);
      assert Silent(es, a, now);
      assert Run(w, ttl, es) && a in End(w, ttl, es).holds && b in End(w, ttl, es).holds;
    } else {
      forall es | Run(w, ttl, es) && Silent(es, a, now)
        ensures b !in End(w, ttl, es).holds
      {
        NobodyTillLapsed(w, ttl, es, a, b, now);
      }
    }
  }

  // --- bringing the room back beside its holder ---

  // GetRoom, all the way, at this pace.
  function Takeover(who: Instance, state: PersistedRoomState, at: int, pace: nat): seq<Event> {
    [Looks(who, at)] + ([Goes(ToLoad(who), at + pace)] + ([Goes(ToClaim(who, state), at + 2 * pace)]
    + ([Goes(ToSaveBack(who, state), at + 3 * pace)] + ([Goes(ToInstall(who, state), at + 4 * pace)] + []))))
  }

  lemma TakesOver(w: World, ttl: int, who: Instance, at: int, pace: nat)
    requires pace < ttl && w.clock <= at && !Live(w.row, at) && Load(w.row).Success? && Restorable(Load(w.row).value)
    ensures var state := Load(w.row).value; var es := Takeover(who, state, at, pace); var t := End(w, ttl, es);
            Run(w, ttl, es) && t.holds == w.holds + {who} && Load(t.row) == Success(state)
            && t.row.Some? && t.row.value.owner == who && t.row.value.expiresAt == at + 2 * pace + ttl && t.clock == at + 4 * pace
  {
    hide Restorable, Run, End, Step, CanStep, Load, Live, Owns;
    var state := Load(w.row).value;
    var e0, e1, e2 := Looks(who, at), Goes(ToLoad(who), at + pace), Goes(ToClaim(who, state), at + 2 * pace);
    var e3, e4 := Goes(ToSaveBack(who, state), at + 3 * pace), Goes(ToInstall(who, state), at + 4 * pace);
    Finds(w, ttl, who, at);
    var w1 := Step(w, ttl, e0);
    Loads(w1, ttl, who, at + pace);
    var w2 := Step(w1, ttl, e1);
    StillLapsed(w.row, at, at + 2 * pace);
    Claims(w2, ttl, who, state, at + 2 * pace);
    var w3 := Step(w2, ttl, e2);
    SavesBack(w3, ttl, who, state, at + 3 * pace);
    var w4 := Step(w3, ttl, e3);
    Installs(w4, ttl, who, state, at + 4 * pace);
    var w5 := Step(w4, ttl, e4);
    RunOut(w5, ttl);
    RunCons(w4, ttl, e4, []);
    RunCons(w3, ttl, e3, [e4] + []);
    RunCons(w2, ttl, e2, [e3] + ([e4] + []));
    RunCons(w1, ttl, e1, [e2] + ([e3] + ([e4] + [])));
    RunCons(w, ttl, e0, [e1] + ([e2] + ([e3] + ([e4] + []))));
  }

  lemma StillLapsed(c: Cell, now: int, later: int)
    requires !Live(c, now) && now <= later
    ensures !Live(c, later)
  {
  }

  lemma Finds(w: World, ttl: int, who: Instance, now: int)
    requires !Live(w.row, now) && w.clock <= now
    ensures CanStep(w, Looks(who, now))
    ensures var t := Step(w, ttl, Looks(who, now)); t.row == w.row && t.holds == w.holds && ToLoad(who) in t.tasks && t.clock == now
  {
  }

  lemma Loads(w: World, ttl: int, who: Instance, now: int)
    requires Load(w.row).Success? && ToLoad(who) in w.tasks && w.clock <= now
    ensures CanStep(w, Goes(ToLoad(who), now))
    ensures var t := Step(w, ttl, Goes(ToLoad(who), now));
            t.row == w.row && t.holds == w.holds && ToClaim(who, Load(w.row).value) in t.tasks && t.clock == now
  {
  }

  lemma Installs(w: World, ttl: int, who: Instance, state: PersistedRoomState, now: int)
    requires ToInstall(who, state) in w.tasks && w.clock <= now && Restorable(state)
    ensures CanStep(w, Goes(ToInstall(who, state), now))
    ensures var t := Step(w, ttl, Goes(ToInstall(who, state), now)); t.row == w.row && t.holds == w.holds + {who} && t.clock == now
  {
    hide Restorable;
  }

  lemma Claims(w: World, ttl: int, who: Instance, state: PersistedRoomState, now: int)
    requires !Live(w.row, now) && Load(w.row) == Success(state) && 0 < ttl && ToClaim(who, state) in w.tasks && w.clock <= now
    ensures CanStep(w, Goes(ToClaim(who, state), now))
    ensures var t := Step(w, ttl, Goes(ToClaim(who, state), now));
            Load(t.row) == Success(state) && t.row.Some? && t.row.value.owner == who && t.row.value.expiresAt == now + ttl
            && t.holds == w.holds && ToSaveBack(who, state) in t.tasks && t.clock == now
  {
  }

  lemma SavesBack(w: World, ttl: int, who: Instance, state: PersistedRoomState, now: int)
    requires w.row.Some? && w.row.value.owner == who && now < w.row.value.expiresAt && Load(w.row) == Success(state)
    requires ToSaveBack(who, state) in w.tasks && w.clock <= now
    ensures CanStep(w, Goes(ToSaveBack(who, state), now))
    ensures var t := Step(w, ttl, Goes(ToSaveBack(who, state), now));
            Load(t.row) == Success(state) && t.row.Some? && t.row.value.owner == who && t.row.value.expiresAt == w.row.value.expiresAt
            && t.holds == w.holds && ToInstall(who, state) in t.tasks && t.clock == now
  {
  }

  // Steps of this instance's GetRoom calls, none after this instant.
  ghost predicate GetsRoom(es: seq<Event>, who: Instance, now: int) {
    forall i :: 0 <= i < |es| ==>
      Time(es[i]) <= now && Who(es[i]) == who && (es[i].Looks? || es[i].Goes? || es[i].Fails?)
  }

  ghost predicate Untouched(w: World, who: Instance) {
    who !in w.holds && forall task :: task in w.tasks ==> task.who != who
  }

  // What GetRoom carries along is the snapshot that is stored.
  ghost predicate Fits(task: Task, stored: Result<PersistedRoomState, StoreError>) {
    !task.ToReset? && !task.ToOpen? && !task.ToSaveFirst?
    && (task.ToClaim? || task.ToSaveBack? || task.ToInstall? ==> stored == Success(task.state))
  }

  ghost predicate Carrying(w: World, who: Instance, stored: Result<PersistedRoomState, StoreError>) {
    Load(w.row) == stored && forall task :: task in w.tasks && task.who == who ==> Fits(task, stored)
  }

  lemma CallCarries(w: World, ttl: int, who: Instance, call: Call, stored: Result<PersistedRoomState, StoreError>)
    requires Load(w.row) == stored && call.op.who == who
    requires (call.op.ClaimOp? || call.op.ReleaseOp?) || (call.op.SaveOp? && stored == Success(call.op.state))
    ensures Load(Done(w, ttl, call).row) == stored
  {
  }

  lemma StepCarries(w: World, ttl: int, e: Event, who: Instance, stored: Result<PersistedRoomState, StoreError>)
    requires CanStep(w, e) && Carrying(w, who, stored) && Who(e) == who && (e.Looks? || e.Goes? || e.Fails?)
    ensures Carrying(Step(w, ttl, e), who, stored)
    ensures who in Step(w, ttl, e).holds ==> who in w.holds || (stored.Success? && Restorable(stored.value))
  {
    hide Restorable, Next, Load, Fits;
    match e
    case Looks(_, now) => LookCarries(w, ttl, who, now, stored);
    case Goes(task, now) =>
      var u := Without(w, task);
      assert Fits(task, stored);
      NextStored(u, ttl, task, now, who, stored);
      forall x | x in Next(u, ttl, task, now).tasks && x.who == who
        ensures Fits(x, stored)
      {
        NextFits(u, ttl, task, now, x, stored);
        assert x in u.tasks ==> x in w.tasks;
      }
    case Fails(task, releases, _) => FitsRelease(task.who, stored);
  }

  lemma FitsRelease(who: Instance, stored: Result<PersistedRoomState, StoreError>)
    ensures Fits(ToRelease(who), stored)
  {
  }

  lemma LookCarries(w: World, ttl: int, who: Instance, now: int, stored: Result<PersistedRoomState, StoreError>)
    requires Carrying(w, who, stored)
    ensures Carrying(Step(w, ttl, Looks(who, now)), who, stored) && Step(w, ttl, Looks(who, now)).holds == w.holds
  {
    hide Load;
  }

  lemma NextStored(w: World, ttl: int, task: Task, now: int, who: Instance, stored: Result<PersistedRoomState, StoreError>)
    requires Load(w.row) == stored && task.who == who && Fits(task, stored)
    ensures Load(Next(w, ttl, task, now).row) == stored
    ensures who in Next(w, ttl, task, now).holds ==> who in w.holds || (task.ToInstall? && stored == Success(task.state))
  {
    hide Done, Refused, Load, Apply;
    SameTasksOfCall(w, ttl);
    match task
    case ToClaim(_, _) => CallCarries(w, ttl, who, Call(now, ClaimOp(who)), stored);
    case ToSaveBack(_, state) => CallCarries(w, ttl, who, Call(now, SaveOp(who, state)), stored);
    case ToRelease(_) => CallCarries(w, ttl, who, Call(now, ReleaseOp(who)), stored);
    case _ =>
  }

  lemma NextFits(w: World, ttl: int, task: Task, now: int, x: Task, stored: Result<PersistedRoomState, StoreError>)
    requires Load(w.row) == stored && Fits(task, stored) && x in Next(w, ttl, task, now).tasks
    ensures x in w.tasks || Fits(x, stored)
  {
    hide Done, Refused, Load, Apply;
    SameTasksOfCall(w, ttl);
  }

  lemma {:induction false} OnlyRestorable(w: World, ttl: int, es: seq<Event>, who: Instance, now: int,
                                          stored: Result<PersistedRoomState, StoreError>)
    requires Carrying(w, who, stored) && Run(w, ttl, es) && GetsRoom(es, who, now) && who !in w.holds
    ensures who in End(w, ttl, es).holds ==> stored.Success? && Restorable(stored.value)
    decreases |es|
  {
    hide Carrying, CanStep, Step, Restorable, Fits;
    if es != [] {
      StepCarries(w, ttl, es[0], who, stored);
      assert forall i :: 0 <= i < |es[1..]| ==> es[1..][i] == es[i + 1];
      if who !in Step(w, ttl, es[0]).holds {
        OnlyRestorable(Step(w, ttl, es[0]), ttl, es[1..], who, now, stored);
      }
    }
  }

  // Beside a holder that owns the row, GetRoom of another instance brings the same
  // room into memory a second time exactly when the holder's lease is over and a
  // snapshot is stored that can be restored.
  lemma BroughtBackExactlyWhen(w: World, ttl: int, a: Instance, b: Instance, now: int)
    requires 0 < ttl && w.row.Some? && w.row.value.owner == a && a in w.holds && a != b && Untouched(w, b) && w.clock <= now
    ensures (exists es :: Run(w, ttl, es) && GetsRoom(es, b, now) && a in End(w, ttl, es).holds && b in End(w, ttl, es).holds)
       <==> w.row.value.expiresAt <= now && Load(w.row).Success? && Restorable(Load(w.row).value)
  {
    hide Run, End, Restorable, Load, Idle;
    if w.row.value.expiresAt <= now && Load(w.row).Success? && Restorable(Load(w.row).value) {
      TakesOver(w, ttl, b, now, 0);
      var es := Takeover(b, Load(w.row).value, now, 0);
      assert GetsRoom(es, b, now);
      assert Run(w, ttl, es) && a in End(w, ttl, es).holds && b in End(w, ttl, es).holds;
    }
    UntouchedIsIdle(w, b);
    forall es | Run(w, ttl, es) && GetsRoom(es, b, now) && b in End(w, ttl, es).holds
      ensures w.row.value.expiresAt <= now && Load(w.row).Success? && Restorable(Load(w.row).value)
    {
      assert Silent(es, a, now);
      if now < w.row.value.expiresAt {
        NobodyTillLapsed(w, ttl, es, a, b, now);
      }
      OnlyRestorable(w, ttl, es, b, now, Load(w.row));
    }
  }

  lemma UntouchedIsIdle(w: World, who: Instance)
    requires Untouched(w, who)
    ensures Idle(w, who)
  {
  }

  // From any state in which somebody holds the room and no lease on it is live, as
  // after a missed heartbeat, it can be brought back a second time.
  lemma LapsedIsShared(w: World, ttl: int, a: Instance, b: Instance, at: int, pace: nat)
    requires a in w.holds && a != b && w.clock <= at && !Live(w.row, at) && pace < ttl
    requires Load(w.row).Success? && Restorable(Load(w.row).value)
    ensures var es := Takeover(b, Load(w.row).value, at, pace);
            Run(w, ttl, es) && a in End(w, ttl, es).holds && b in End(w, ttl, es).holds
  {
    hide Run, End, Restorable, Load;
    TakesOver(w, ttl, b, at, pace);
  }

  lemma {:induction false} RunConcat(w: World, ttl: int, a: seq<Event>, b: seq<Event>)
    requires Run(w, ttl, a) && Run(End(w, ttl, a), ttl, b)
    ensures Run(w, ttl, a + b) && End(w, ttl, a + b) == End(End(w, ttl, a), ttl, b)
    decreases |a|
  {
    hide CanStep, Step;
    if a == [] {
      assert a + b == b;
    } else {
      RunConcat(Step(w, ttl, a[0]), ttl, a[1..], b);
      assert (a + b)[0] == a[0] && (a + b)[1..] == a[1..] + b;
    }
  }

  lemma SavesFirst(w: World, ttl: int, who: Instance, state: PersistedRoomState, now: int)
    requires w.row.Some? && w.row.value == Row(who, w.row.value.expiresAt, None, 0) && now < w.row.value.expiresAt
    requires ToSaveFirst(who, state) in w.tasks && w.clock <= now
    ensures var e := Goes(ToSaveFirst(who, state), now); var t := Step(w, ttl, e);
            CanStep(w, e) && t.holds == w.holds && t.clock == now && Load(t.row) == Success(state)
            && t.row == Some(Row(who, w.row.value.expiresAt, Some(state), state.revision))
  {
  }

  ghost function FirstSnapshot(code: string, deck: Deck, e: Entropy, now: int): PersistedRoomState
    requires deck.Playable() && deck.For(Family).Playable() && e.nextId > 0
  {
    RoundPreservation.NewRoomValid(code, deck, e, now);
    Rules.Persist(Rules.Observed(Rules.NewRoom(code, deck, e, now)))
  }

  lemma FirstIsRestorable(code: string, deck: Deck, e: Entropy, now: int)
    requires deck.Playable() && deck.For(Family).Playable() && e.nextId > 0 && RoomRestore.Generated(code)
    ensures Restorable(FirstSnapshot(code, deck, e, now))
  {
    hide RoomRestore.Restore, Rules.Persist, Invariant.Good, RoomRestore.Revived, RoomRestore.Generated, Rules.AnswerShoe, Rules.PromptShoe;
    RoundPreservation.NewRoomValid(code, deck, e, now);
    var s := Rules.Observed(Rules.NewRoom(code, deck, e, now));
    RoomRestore.RoundTrip(s, deck, e, now);
    assert RoomRestore.Restore(FirstSnapshot(code, deck, e, now), deck, e, now).Success?;
  }

  // CreateRoom, all the way.
  function Opening(who: Instance, state: PersistedRoomState, at: int, pace: nat): seq<Event> {
    Creation(who, state, at, pace) + [Goes(ToSaveFirst(who, state), at + 3 * pace)]
  }

  lemma OpensAndSaves(w: World, ttl: int, who: Instance, state: PersistedRoomState, at: int, pace: nat)
    requires 3 * pace < ttl && w.clock <= at && !Live(w.row, at) && who !in w.holds
    ensures var es := Opening(who, state, at, pace); var t := End(w, ttl, es);
            Run(w, ttl, es) && t.holds == w.holds + {who} && t.clock == at + 3 * pace
            && Load(t.row) == Success(state) && t.row == Some(Row(who, at + ttl, Some(state), state.revision))
  {
    hide Run, End, Step, CanStep;
    Opens(w, ttl, who, state, at, pace);
    var m := End(w, ttl, Creation(who, state, at, pace));
    var e := Goes(ToSaveFirst(who, state), at + 3 * pace);
    SavesFirst(m, ttl, who, state, at + 3 * pace);
    RunOut(Step(m, ttl, e), ttl);
    RunCons(m, ttl, e, []);
    assert [e] + [] == [e];
    RunConcat(w, ttl, Creation(who, state, at, pace), [e]);
  }

  // And it does happen, for every new room under every free code: one instance opens
  // it and misses its heartbeat; at the end of the term another is asked for it,
  // claims it and installs the stored snapshot; and until the first one's next
  // heartbeat both have it.
  lemma TwoHoldForAWhile(row: Cell, code: string, deck: Deck, e: Entropy, now: int, ttl: int, pace: nat, late: nat)
    requires !Live(row, now) && 3 * pace < ttl
    requires RoomRestore.Generated(code) && deck.Playable() && deck.For(Family).Playable() && e.nextId > 0
    ensures var state := FirstSnapshot(code, deck, e, now);
            var es := Opening(1, state, now, pace) + Takeover(2, state, now + ttl, pace);
            var w := End(Start(row, now), ttl, es);
            Run(Start(row, now), ttl, es) && w.holds == {1, 2} && Load(w.row) == Success(state)
            && Step(w, ttl, Called(Call(w.clock + late, HeartbeatOp(1)))).holds == {2}
  {
    hide Run, End, Step, CanStep, Restorable, FirstSnapshot, RoomRestore.Generated;
    var state := FirstSnapshot(code, deck, e, now);
    FirstIsRestorable(code, deck, e, now);
    var s := Start(row, now);
    OpensAndSaves(s, ttl, 1, state, now, pace);
    var m := End(s, ttl, Opening(1, state, now, pace));
    TakesOver(m, ttl, 2, now + ttl, pace);
    RunConcat(s, ttl, Opening(1, state, now, pace), Takeover(2, state, now + ttl, pace));
    var w := End(m, ttl, Takeover(2, state, now + ttl, pace));
    assert w.holds == {1, 2};
    HeartbeatRefused(w, ttl, w.clock + late, 1);
  }
}
