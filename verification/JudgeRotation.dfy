// The judge's chair goes round fairly, whoever joins and leaves.
module JudgeRotation {
  import opened Wrappers
  import opened Sequences
  import opened RoomTypes
  import opened RoomRules
  import opened RoomInvariant
  import opened RoomPreservation
  import opened RoomRuns
  import opened StepEffects

  // Who judges next, and after that, as things stand: the seats after the
  // cursor, then round to the cursor itself.
  ghost function Ring(order: seq<Id>, cursor: int): seq<Id>
    requires 0 <= cursor < |order|
  {
    order[cursor + 1..] + order[..cursor + 1]
  }

  // p's turn comes before q's.
  ghost predicate Before(ring: seq<Id>, p: Id, q: Id) {
    IndexOf(ring, p) < IndexOf(ring, q)
  }

  // --- the ring under churn ---

  // A departure takes one name out of the ring and moves no other, so the next
  // rotation lands on the first remaining player after the old cursor.
  lemma RingAfterDeparture(order: seq<Id>, cursor: int, player: Id)
    requires Distinct(order) && player in order && 0 <= cursor < |order| && |order| > 1
    ensures var rest := Without(order, player); var after := CursorAfter(order, cursor, player);
            0 <= after < |rest| && Ring(rest, after) == Without(Ring(order, cursor), player)
  {
    hide Without, CursorAfter, Ring;
    WithoutIsSlice(order, player);
    CursorValue(order, cursor, player);
    var i := IndexOf(order, player);
    if i <= cursor {
      SeatBehindLeaves(order, cursor, i);
    } else {
      SeatAheadLeaves(order, cursor, i);
    }
  }

  lemma CursorValue(order: seq<Id>, cursor: int, player: Id)
    requires Distinct(order) && player in order && 0 <= cursor < |order| && |order| > 1
    ensures IndexOf(order, player) < |order| && |Without(order, player)| == |order| - 1
    ensures CursorAfter(order, cursor, player)
            == if IndexOf(order, player) > cursor then cursor else if cursor == 0 then |order| - 2 else cursor - 1
  {
    hide Without, IndexOf;
    WithoutKeeps(order, player);
    var i := IndexOf(order, player);
    var n := |order| - 1;
    if i > cursor {
      SmallMod(cursor, n);
    } else if cursor == 0 {
      ModWraps(n);
    } else {
      SmallMod(cursor - 1, n);
    }
  }

  // The seat taken away is the cursor's or one the ring reaches last.
  lemma SeatBehindLeaves(order: seq<Id>, cursor: int, i: nat)
    requires Distinct(order) && i <= cursor < |order| && |order| > 1
    ensures var rest := order[..i] + order[i + 1..];
            Ring(rest, if cursor == 0 then |rest| - 1 else cursor - 1) == Without(Ring(order, cursor), order[i])
  {
    hide Without;
    var rest := order[..i] + order[i + 1..];
    WithoutConcat(order[cursor + 1..], order[..cursor + 1], order[i]);
    SliceWithout(order, 0, cursor + 1, i);
    assert order[i] !in order[cursor + 1..];
    if cursor > 0 {
      assert rest[cursor..] == order[cursor + 1..];
      assert rest[..cursor] == order[..i] + order[i + 1..cursor + 1];
    }
  }

  // The seat taken away is one the ring reaches before it wraps.
  lemma SeatAheadLeaves(order: seq<Id>, cursor: int, i: nat)
    requires Distinct(order) && 0 <= cursor < i < |order|
    ensures Ring(order[..i] + order[i + 1..], cursor) == Without(Ring(order, cursor), order[i])
  {
    hide Without;
    var rest := order[..i] + order[i + 1..];
    WithoutConcat(order[cursor + 1..], order[..cursor + 1], order[i]);
    SliceWithout(order, cursor + 1, |order|, i);
    assert order[cursor + 1..|order|] == order[cursor + 1..] && order[i + 1..|order|] == order[i + 1..];
    assert rest[cursor + 1..] == order[cursor + 1..i] + order[i + 1..];
    assert rest[..cursor + 1] == order[..cursor + 1];
  }

  lemma SliceWithout(order: seq<Id>, lo: nat, hi: nat, i: nat)
    requires Distinct(order) && lo <= i < hi <= |order|
    ensures order[i] in order[lo..hi] && Without(order[lo..hi], order[i]) == order[lo..i] + order[i + 1..hi]
  {
    var part := order[lo..hi];
    assert part[i - lo] == order[i];
    WithoutIsSlice(part, order[i]);
    assert part[..i - lo] == order[lo..i] && part[i - lo + 1..] == order[i + 1..hi];
  }

  // NextRound hands the chair to the head of the ring, who goes to the back.
  lemma RingAfterRotation(order: seq<Id>, cursor: int)
    requires 0 <= cursor < |order|
    ensures var next := (cursor + 1) % |order|;
            0 <= next < |order| && order[next] == Ring(order, cursor)[0]
            && Ring(order, next) == Ring(order, cursor)[1..] + [Ring(order, cursor)[0]]
  {
    if cursor + 1 < |order| {
      SmallMod(cursor + 1, |order|);
      assert order[..cursor + 2] == order[..cursor + 1] + [order[cursor + 1]];
      assert Ring(order, cursor)[1..] == order[cursor + 2..] + order[..cursor + 1];
    } else {
      ModWraps(|order|);
      assert Ring(order, cursor) == order;
    }
  }

  // A newcomer slips into the ring and moves nobody.
  lemma RingAfterArrival(order: seq<Id>, cursor: int, player: Id)
    requires 0 <= cursor < |order|
    ensures Ring(order + [player], cursor) == order[cursor + 1..] + [player] + order[..cursor + 1]
  {
    assert (order + [player])[cursor + 1..] == order[cursor + 1..] + [player];
    assert (order + [player])[..cursor + 1] == order[..cursor + 1];
  }

  lemma {:induction false} IndexOfConcat(a: seq<Id>, b: seq<Id>, p: Id)
    ensures IndexOf(a + b, p) == if p in a then IndexOf(a, p) else |a| + IndexOf(b, p)
  {
    if a == [] {
      assert a + b == b;
    } else if a[0] != p {
      assert (a + b)[1..] == a[1..] + b;
      IndexOfConcat(a[1..], b, p);
    }
  }

  lemma {:induction false} IndexOfWithout(r: seq<Id>, x: Id, p: Id)
    requires p != x
    ensures IndexOf(Without(r, x), p) == IndexOf(r, p) - if x in r && IndexOf(r, x) < IndexOf(r, p) then 1 else 0
  {
    if r != [] && r[0] != x {
      if r[0] != p {
        IndexOfWithout(r[1..], x, p);
      }
    }
  }

  lemma BeforeSurvivesDeparture(r: seq<Id>, x: Id, p: Id, q: Id)
    requires p != x && q != x && p != q
    ensures Before(Without(r, x), p, q) <==> Before(r, p, q)
  {
    hide IndexOf, Without;
    IndexOfWithout(r, x, p);
    IndexOfWithout(r, x, q);
  }

  lemma BeforeSurvivesArrival(a: seq<Id>, b: seq<Id>, x: Id, p: Id, q: Id)
    requires p != x && q != x && p in a + b && q in a + b
    ensures Before(a + [x] + b, p, q) <==> Before(a + b, p, q)
  {
    hide IndexOf;
    forall id | id == p || id == q
      ensures IndexOf(a + [x] + b, id) == IndexOf(a + b, id) + if id in a then 0 else 1
    {
      IndexOfConcat(a + [x], b, id);
      IndexOfConcat(a, [x], id);
      IndexOfConcat(a, b, id);
    }
  }

  lemma BeforeAfterRotation(r: seq<Id>, p: Id, q: Id)
    requires Distinct(r) && p in r && q in r && p != q
    ensures var t := r[1..] + [r[0]];
            if r[0] == p then Before(r, p, q) && Before(t, q, p)
            else if r[0] == q then Before(r, q, p) && Before(t, p, q)
            else Before(t, p, q) <==> Before(r, p, q)
  {
    hide IndexOf;
    assert r == [r[0]] + r[1..];
    forall id | id == p || id == q
      ensures IndexOf(r, id) == (if id == r[0] then 0 else 1 + IndexOf(r[1..], id))
      ensures IndexOf(r[1..] + [r[0]], id) == (if id == r[0] then |r| - 1 else IndexOf(r[1..], id))
      ensures id != r[0] ==> IndexOf(r[1..], id) < |r| - 1
    {
      IndexOfConcat([r[0]], r[1..], id);
      IndexOfConcat(r[1..], [r[0]], id);
      IndexOfFirst(r[0], id);
    }
  }

  lemma IndexOfFirst(h: Id, id: Id)
    ensures IndexOf([h], id) == if id == h then 0 else 1
  {
  }

  // --- one event ---

  ghost predicate OnTheRing(s: RoomState) {
    0 <= s.judgeIndex < |s.order| && Distinct(s.order)
  }

  lemma GameHasRing(s: RoomState)
    requires Valid(s) && s.phase != Lobby && s.order != []
    ensures OnTheRing(s)
  {
  }

  // 1 when p is due before q, 0 when q is due before p.
  ghost function Due(s: RoomState, p: Id, q: Id): int
    requires OnTheRing(s)
  {
    if Before(Ring(s.order, s.judgeIndex), p, q) then 1 else 0
  }

  // Was p made judge by this event?
  ghost function TurnOf(s: RoomState, e: Event, p: Id): nat
    requires Valid(s) && CanStep(s, e.command)
  {
    if Turns(s, e) && After(s, e).judgeID == p then 1 else 0
  }

  lemma ArrivalKeepsDue(s: RoomState, t: RoomState, p: Id, q: Id)
    requires OnTheRing(s) && OnTheRing(t) && p in s.order && q in s.order
    requires s.entropy.nextId !in s.order && t.order == s.order + [s.entropy.nextId] && t.judgeIndex == s.judgeIndex
    ensures Due(t, p, q) == Due(s, p, q)
  {
    RingAfterArrival(s.order, s.judgeIndex, s.entropy.nextId);
    assert s.order == s.order[..s.judgeIndex + 1] + s.order[s.judgeIndex + 1..];
    BeforeSurvivesArrival(s.order[s.judgeIndex + 1..], s.order[..s.judgeIndex + 1], s.entropy.nextId, p, q);
  }

  lemma DepartureKeepsDue(s: RoomState, t: RoomState, x: Id, p: Id, q: Id)
    requires OnTheRing(s) && OnTheRing(t) && x in s.order && p in t.order && q in t.order && p != q && |s.order| > 1
    requires t.order == Without(s.order, x) && t.judgeIndex == CursorAfter(s.order, s.judgeIndex, x)
    ensures Due(t, p, q) == Due(s, p, q)
  {
    hide CursorAfter, Without, Before;
    WithoutKeeps(s.order, x);
    RingAfterDeparture(s.order, s.judgeIndex, x);
    BeforeSurvivesDeparture(Ring(s.order, s.judgeIndex), x, p, q);
  }

  lemma RotationMovesDue(s: RoomState, t: RoomState, p: Id, q: Id)
    requires OnTheRing(s) && OnTheRing(t) && p in s.order && q in s.order && p != q
    requires t.order == s.order && t.judgeIndex == (s.judgeIndex + 1) % |s.order| && t.judgeID == s.order[t.judgeIndex]
    ensures Due(s, p, q) - Due(t, p, q) == (if t.judgeID == p then 1 else 0) - (if t.judgeID == q then 1 else 0)
  {
    hide Before, Distinct;
    var r := Ring(s.order, s.judgeIndex);
    RingAfterRotation(s.order, s.judgeIndex);
    RingIsDistinct(s.order, s.judgeIndex);
    BeforeAfterRotation(r, p, q);
    OneIsFirst(r, p, q);
    OneIsFirst(r[1..] + [r[0]], p, q);
  }

  lemma RingIsDistinct(order: seq<Id>, cursor: int)
    requires Distinct(order) && 0 <= cursor < |order|
    ensures Distinct(Ring(order, cursor)) && forall id :: id in Ring(order, cursor) <==> id in order
  {
    assert order == order[..cursor + 1] + order[cursor + 1..];
  }

  lemma OneIsFirst(r: seq<Id>, p: Id, q: Id)
    ensures Before(r, p, q) ==> !Before(r, q, p)
  {
  }

  // Who is seated after an event of a game: the same people, but for one who
  // left or one newcomer with a fresh id.
  lemma StepSeats(s: RoomState, e: Event)
    requires Valid(s) && CanStep(s, e.command) && InGame(s, e)
    ensures var t := After(s, e);
            t.entropy.nextId >= s.entropy.nextId && forall id :: id in t.players ==> id in s.players || id >= s.entropy.nextId
  {
    hide Valid, CanStep, Turns, Scorer, Step, Arrives;
    var t := After(s, e);
    if Departs(s, e) {
      DepartureEffect(s, e);
    } else if Arrives(s, e) {
      ArrivalEffect(s, e);
    } else if Turns(s, e) {
      TurnEffect(s, e);
    } else if Scorer(s, e).Some? {
      ScoringTable(s, e);
    } else {
      QuietTable(s, e);
    }
  }

  lemma StepDue(s: RoomState, e: Event, p: Id, q: Id)
    requires Valid(s) && CanStep(s, e.command) && InGame(s, e)
    requires p in s.order && q in s.order && p in After(s, e).order && q in After(s, e).order && p != q
    ensures OnTheRing(s) && OnTheRing(After(s, e))
    ensures TurnOf(s, e, q) - TurnOf(s, e, p) == Due(After(s, e), p, q) - Due(s, p, q)
  {
    hide Valid, CanStep, Step, Due, OnTheRing, Without, CursorAfter;
    var t := After(s, e);
    SeatsAndIds(s, p);
    SeatsAndIds(s, q);
    GameHasRing(s);
    StaysInGame(s, e);
    GameHasRing(t);
    FreshSeat(s);
    if Departs(s, e) {
      var x := e.command.player;
      DepartureEffect(s, e);
      SeatsAndIds(s, x);
      SeatGone(s, x, p);
      DepartureKeepsDue(s, t, x, p, q);
    } else if Arrives(s, e) {
      ArrivalEffect(s, e);
      ArrivalKeepsDue(s, t, p, q);
    } else if Turns(s, e) {
      TurnEffect(s, e);
      RotationMovesDue(s, t, p, q);
    } else if Scorer(s, e).Some? {
      ScoringTable(s, e);
      SameRing(s, t, p, q);
    } else {
      QuietTable(s, e);
      SameRing(s, t, p, q);
    }
  }

  lemma SeatGone(s: RoomState, x: Id, p: Id)
    requires OnTheRing(s) && x in s.order && p in Without(s.order, x)
    ensures |s.order| > 1
  {
    WithoutKeeps(s.order, x);
  }

  lemma FreshSeat(s: RoomState)
    requires Valid(s)
    ensures s.entropy.nextId !in s.order
  {
    CoreFacts(s);
  }

  lemma SameRing(s: RoomState, t: RoomState, p: Id, q: Id)
    requires OnTheRing(s) && OnTheRing(t) && SameSeats(s, t)
    ensures Due(t, p, q) == Due(s, p, q)
  {
  }

  // --- whole games ---

  ghost predicate OneGame(s: RoomState, es: seq<Event>)
    requires Valid(s) && Run(s, es)
    decreases |es|
  {
    es == [] || (InGame(s, es[0]) && OneGame(After(s, es[0]), es[1..]))
  }

  ghost function TurnsOf(s: RoomState, es: seq<Event>, p: Id): nat
    requires Valid(s) && Run(s, es)
    decreases |es|
  {
    if es == [] then 0 else TurnOf(s, es[0], p) + TurnsOf(After(s, es[0]), es[1..], p)
  }

  // A player who has left a game does not come back.
  lemma {:induction false} GoneForGood(s: RoomState, es: seq<Event>, p: Id)
    requires Valid(s) && Run(s, es) && OneGame(s, es) && p !in s.players && p < s.entropy.nextId
    ensures p !in End(s, es).players
    decreases |es|
  {
    hide Valid, CanStep, Step, InGame;
    if es != [] {
      StepSeats(s, es[0]);
      GoneForGood(After(s, es[0]), es[1..], p);
    }
  }

  lemma SeatsAndIds(s: RoomState, p: Id)
    requires Valid(s)
    ensures p in s.players <==> p in s.order
    ensures p in s.players ==> p < s.entropy.nextId
  {
    CoreFacts(s);
  }

  // In any stretch of a game through which p and q are both seated, whoever joins
  // or leaves meanwhile, their turns as judge alternate: the difference in turns
  // taken is the difference in who is due.
  lemma {:induction false} JudgesAlternate(s: RoomState, es: seq<Event>, p: Id, q: Id)
    requires Valid(s) && Run(s, es) && OneGame(s, es) && s.phase != Lobby && p != q
    requires p in s.players && q in s.players && p in End(s, es).players && q in End(s, es).players
    ensures OnTheRing(s) && OnTheRing(End(s, es))
    ensures TurnsOf(s, es, q) - TurnsOf(s, es, p) == Due(End(s, es), p, q) - Due(s, p, q)
    ensures -1 <= TurnsOf(s, es, q) - TurnsOf(s, es, p) <= 1
    decreases |es|
  {
    hide Valid, CanStep, Step, InGame, OnTheRing, TurnOf, Ring, Before;
    SeatsAndIds(s, p);
    SeatsAndIds(s, q);
    GameHasRing(s);
    if es != [] {
      var t := After(s, es[0]);
      StepSeats(s, es[0]);
      if p !in t.players {
        GoneForGood(t, es[1..], p);
      }
      if q !in t.players {
        GoneForGood(t, es[1..], q);
      }
      SeatsAndIds(t, p);
      SeatsAndIds(t, q);
      StaysInGame(s, es[0]);
      StepDue(s, es[0], p, q);
      JudgesAlternate(t, es[1..], p, q);
    }
  }

  lemma StaysInGame(s: RoomState, e: Event)
    requires Valid(s) && CanStep(s, e.command) && InGame(s, e)
    ensures After(s, e).phase != Lobby
  {
    hide Valid, CanStep, Scorer, Step, Turns, Arrives;
    if Departs(s, e) {
      DepartureEffect(s, e);
    } else if Arrives(s, e) {
      ArrivalEffect(s, e);
    } else if Turns(s, e) {
      TurnEffect(s, e);
    } else if Scorer(s, e).Some? {
      ScoringTable(s, e);
    } else {
      QuietTable(s, e);
    }
  }

  // The player at the cursor is last round the ring.
  lemma CursorIsLast(s: RoomState, p: Id, q: Id)
    requires OnTheRing(s) && s.order[s.judgeIndex] == p && q in s.order && p != q
    ensures Due(s, p, q) == 0
  {
    hide IndexOf;
    var a, b := s.order[s.judgeIndex + 1..], s.order[..s.judgeIndex];
    assert s.order == b + [p] + a;
    assert s.order[..s.judgeIndex + 1] == b + [p];
    assert Ring(s.order, s.judgeIndex) == (a + b) + [p];
    assert p !in a + b && q in a + b;
    IndexOfConcat(a + b, [p], p);
    IndexOfConcat(a + b, [p], q);
  }

  lemma JudgeAtCursor(s: RoomState, p: Id)
    requires Valid(s) && s.phase == Submitting && s.judgeID == p
    ensures OnTheRing(s) && s.order[s.judgeIndex] == p && p in s.players && p in s.order
  {
    CoreFacts(s);
  }

  // Between two consecutive turns of p, everyone seated throughout is judge
  // exactly once.
  lemma EveryoneJudgesOnce(s: RoomState, es: seq<Event>, p: Id, q: Id)
    requires Valid(s) && Run(s, es) && OneGame(s, es) && p != q
    requires s.phase == Submitting && s.judgeID == p
    requires End(s, es).phase == Submitting && End(s, es).judgeID == p && TurnsOf(s, es, p) == 1
    requires q in s.players && q in End(s, es).players
    ensures TurnsOf(s, es, q) == 1
  {
    hide Valid, CanStep, Step, OneGame, OnTheRing, TurnsOf, Due;
    JudgeAtCursor(s, p);
    JudgeAtCursor(End(s, es), p);
    SeatsAndIds(s, q);
    SeatsAndIds(End(s, es), q);
    JudgesAlternate(s, es, p, q);
    CursorIsLast(s, p, q);
    CursorIsLast(End(s, es), p, q);
  }
}
