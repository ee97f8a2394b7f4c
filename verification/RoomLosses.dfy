// A whole run, from the opening of the room, that ends in a room no restart brings
// back.
module RoomLosses {
  import opened Wrappers
  import opened Sequences
  import opened Cards
  import opened RoomTypes
  import opened RoomRules
  import opened RoomInvariant
  import opened RoomPreservation
  import opened RoundPreservation
  import opened RoomRuns
  import opened RoomRestore
  import opened RoomLaws

  // An open lobby whose host is the first of the players.
  ghost predicate LobbyOf(s: RoomState, code: string, players: nat) {
    s.phase == Lobby && s.phaseSeq == 0 && s.code == code && s.maxPlayers == DEFAULT_MAX_PLAYERS && |s.order| == players
    && s.submitSecs == DEFAULT_SUBMIT_SECS
    && s.hostID == (if s.order == [] then 0 else s.order[0])
  }

  lemma OpensEmpty(code: string, deck: Deck, e: Entropy, now: int)
    ensures LobbyOf(Observed(NewRoom(code, deck, e, now)), code, 0)
    ensures Observed(NewRoom(code, deck, e, now)).entropy.nextId == e.nextId
  {
    hide AnswerShoe, PromptShoe, Persist;
  }

  function Joining(name: string, now: int): Event {
    Event(now, JoinCmd(name))
  }

  lemma SomeoneJoins(s: RoomState, code: string, players: nat, name: string, now: int)
    requires Valid(s) && LobbyOf(s, code, players) && players < DEFAULT_MAX_PLAYERS && ValidPlayerName(name)
    ensures var t := After(s, Joining(name, now));
            LobbyOf(t, code, players + 1) && t.order == s.order + [s.entropy.nextId]
  {
    hide Good, Persist, DrawAnswers;
    ValidFacts(s);
    NextIdIsSome(s);
  }

  lemma NextIdIsSome(s: RoomState)
    requires Valid(s)
    ensures s.entropy.nextId != 0 && 0 !in s.order
  {
    CoreFacts(s);
  }

  lemma GameStarts(s: RoomState, code: string, players: nat, now: int)
    requires Valid(s) && LobbyOf(s, code, players) && players >= MIN_PLAYERS_TO_START
    ensures var t := After(s, Event(now, StartGameCmd(s.order[0])));
            t.phase == Submitting && t.phaseSeq == 1 && t.code == code && t.order == s.order && t.judgeID == s.order[0] && t.submissions == map[]
            && t.phaseDeadline == Some(now + DEFAULT_SUBMIT_SECS)
  {
    hide Good, Persist, RefillAll, MarkJudge, ComputerTurns, PromptShoe;
    ValidFacts(s);
    RoundOpens(s.(judgeIndex := 0), now);
  }

  lemma RoundOpens(s: RoomState, now: int)
    requires s.deck.Playable() && s.order != [] && s.judgeIndex == 0 && Seated(s) && s.submitSecs > 0
    ensures var t := ScheduleComputerTurns(BeginRound(s, now));
            t.phase == Submitting && t.phaseSeq == s.phaseSeq + 1 && t.code == s.code && t.order == s.order
            && t.judgeID == s.order[0] && t.submissions == map[] && t.phaseDeadline == Some(now + s.submitSecs)
  {
    hide Persist, RefillAll, ComputerTurns, PromptShoe;
    var t := JudgeNamed(s);
    RefillAllFrame(t, t.order);
  }

  lemma NobodyAnswers(s: RoomState, now: int)
    requires Valid(s) && s.phase == Submitting && s.submissions == map[]
    ensures CanStep(s, DeadlineFires(s.phaseSeq, 0))
    ensures var t := After(s, Event(now, DeadlineFires(s.phaseSeq, 0)));
            t.phase == Scoring && t.code == s.code && t.order == s.order && t.judgeID == s.judgeID && t.players == s.players
  {
    hide Good, Persist, ComputerTurns;
    NoStall(s);
  }

  lemma JudgeLeaves(s: RoomState, deck: Deck, e: Entropy, now: int, later: int)
    requires Valid(s) && Generated(s.code) && s.phase == Scoring && |s.order| > MIN_PLAYERS_TO_START && s.judgeID in s.players
    ensures var t := After(s, Event(now, LeaveCmd(s.judgeID)));
            |t.order| >= MIN_PLAYERS_TO_START && t.phase == Scoring && RoomRestore.Restore(Persist(t), deck, e, later) == Failure(UnknownJudge)
  {
    hide Good, Persist, RoomRestore.Restore, Generated, Leave;
    RestartLosesRoom(s, now, deck, e, later);
    ScoringGoesOn(s, now);
  }

  lemma ScoringGoesOn(s: RoomState, now: int)
    requires Valid(s) && s.phase == Scoring && |s.order| > MIN_PLAYERS_TO_START && s.judgeID in s.players
    ensures Leave(s, s.judgeID, now).room.phase == Scoring
  {
    hide Good, Persist, CardPlayed, HasSubmission, ComputerTurns, CursorAfter, FirstConnectedHuman, FirstHuman;
    WithoutKeeps(s.order, s.judgeID);
  }

  // The clock does not run backwards, and a deadline of the current phase fires when
  // it is due, not before.
  ghost predicate OnTheClock(s: RoomState, es: seq<Event>, since: int)
    requires Valid(s) && Run(s, es)
    decreases |es|
  {
    es == []
    || (since <= es[0].now
        && (es[0].command.DeadlineFires? && es[0].command.seqNo == s.phaseSeq ==>
              s.phaseDeadline.Some? && s.phaseDeadline.value <= es[0].now)
        && OnTheClock(After(s, es[0]), es[1..], es[0].now))
  }

  lemma FirstOf(s: RoomState, e: Event, es: seq<Event>, since: int)
    requires Valid(s) && CanStep(s, e.command) && Run(After(s, e), es) && since <= e.now && OnTheClock(After(s, e), es, e.now)
    requires e.command.DeadlineFires? && e.command.seqNo == s.phaseSeq ==> s.phaseDeadline.Some? && s.phaseDeadline.value <= e.now
    ensures Run(s, [e] + es) && End(s, [e] + es) == End(After(s, e), es) && OnTheClock(s, [e] + es, since)
  {
    hide CanStep, Step;
    assert ([e] + es)[1..] == es;
  }

  lemma RunOut(s: RoomState, since: int)
    requires Valid(s)
    ensures Run(s, []) && End(s, []) == s && OnTheClock(s, [], since)
  {
  }

  // The host starts, nobody plays a card in the whole time given, and the judge, who
  // is the host, leaves.
  function Ending(host: Id, now: int): seq<Event> {
    [Event(now, StartGameCmd(host)), Event(now + DEFAULT_SUBMIT_SECS, DeadlineFires(1, 0)),
     Event(now + DEFAULT_SUBMIT_SECS + 1, LeaveCmd(host))]
  }

  // The room plays on and no process restores it, then or later.
  ghost predicate Lost(s: RoomState, deck: Deck, e: Entropy, later: int)
    requires Valid(s)
  {
    s.phase == Scoring && |s.order| >= MIN_PLAYERS_TO_START && RoomRestore.Restore(Persist(s), deck, e, later) == Failure(UnknownJudge)
  }

  lemma JudgeStrands(s: RoomState, code: string, now: int, since: int, deck: Deck, e: Entropy, later: int)
    requires Valid(s) && LobbyOf(s, code, 4) && Generated(code) && since <= now
    ensures var es := Ending(s.order[0], now);
            Run(s, es) && OnTheClock(s, es, since) && Lost(End(s, es), deck, e, later)
  {
    hide Good, Valid, Step, Persist, RoomRestore.Restore, Generated, Run, End, OnTheClock;
    var host := s.order[0];
    var e0, e1 := Event(now, StartGameCmd(host)), Event(now + DEFAULT_SUBMIT_SECS, DeadlineFires(1, 0));
    var e2 := Event(now + DEFAULT_SUBMIT_SECS + 1, LeaveCmd(host));
    GameStarts(s, code, 4, now);
    var a := After(s, e0);
    NobodyAnswers(a, e1.now);
    var b := After(a, e1);
    JudgeSits(a, b);
    JudgeLeaves(b, deck, e, e2.now, later);
    var c := After(b, e2);
    RunOut(c, e2.now);
    FirstOf(b, e2, [], e1.now);
    assert [e2] + [] == [e2];
    FirstOf(a, e1, [e2], e0.now);
    assert [e1] + [e2] == [e1, e2];
    FirstOf(s, e0, [e1, e2], since);
    assert [e0] + [e1, e2] == Ending(host, now);
  }

  lemma JudgeSits(a: RoomState, b: RoomState)
    requires Valid(a) && a.phase == Submitting && b.players == a.players && b.judgeID == a.judgeID
    ensures b.judgeID in b.players
  {
    hide Limits, DeckOk, Connections, Table, SevenCards, Scores, Timers, ComputersDue, JudgeFlags, Persist, HasSubmission;
    CoreFacts(a);
  }

  // One person a second.
  function Joins(n: nat, name: string, now: int): seq<Event> {
    if n == 0 then [] else [Joining(name, now)] + Joins(n - 1, name, now + 1)
  }

  // The seats fill up, and then the rest of it happens.
  lemma {:induction false} JoinsThenEnds(s: RoomState, code: string, players: nat, host: Id, name: string, now: int, since: int,
                                         deck: Deck, e: Entropy, later: int)
    requires Valid(s) && LobbyOf(s, code, players) && players <= 4 && ValidPlayerName(name) && Generated(code) && since <= now
    requires host == if players == 0 then s.entropy.nextId else s.hostID
    ensures var es := Joins(4 - players, name, now) + Ending(host, now + 4 - players);
            Run(s, es) && OnTheClock(s, es, since) && Lost(End(s, es), deck, e, later)
    decreases 4 - players
  {
    hide Good, Valid, Step, Persist, RoomRestore.Restore, Generated, Run, End, ValidPlayerName, OnTheClock, Lost;
    var es := Joins(4 - players, name, now) + Ending(host, now + 4 - players);
    if players == 4 {
      assert es == Ending(host, now);
      JudgeStrands(s, code, now, since, deck, e, later);
    } else {
      SomeoneJoins(s, code, players, name, now);
      var t := After(s, Joining(name, now));
      JoinsThenEnds(t, code, players + 1, host, name, now + 1, now, deck, e, later);
      var rest := Joins(4 - players - 1, name, now + 1) + Ending(host, now + 4 - players);
      assert es == [Joining(name, now)] + rest;
      FirstOf(s, Joining(name, now), rest, since);
    }
  }

  // In every newly opened room, whatever its deck, this can happen: four people
  // join, the host starts, nobody plays a card before the deadline, and the judge,
  // who is the host, leaves. The room goes on with three players, and no process can
  // restore it.
  lemma RestartCanLoseRoom(code: string, deck: Deck, e: Entropy, name: string, now: int, deck': Deck, e': Entropy, later: int)
    requires Generated(code) && ValidPlayerName(name) && deck.Playable() && deck.For(Family).Playable() && 0 < e.nextId
    ensures var s, es := Observed(NewRoom(code, deck, e, now)), Joins(4, name, now) + Ending(e.nextId, now + 4);
            Valid(s) && Run(s, es) && OnTheClock(s, es, now) && Lost(End(s, es), deck', e', later)
  {
    hide Good, Step, Persist, RoomRestore.Restore, Generated, ValidPlayerName, Run, End, LobbyOf, Joins, Ending, AnswerShoe, PromptShoe;
    hide OnTheClock, Lost;
    NewRoomValid(code, deck, e, now);
    OpensEmpty(code, deck, e, now);
    JoinsThenEnds(Observed(NewRoom(code, deck, e, now)), code, 0, e.nextId, name, now, now, deck', e', later);
  }
}
