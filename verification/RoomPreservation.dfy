// Every command keeps the room valid.
module RoomPreservation {
  import opened Wrappers
  import opened Sequences
  import opened Cards
  import opened RoomTypes
  import opened RoomRules
  import opened RoomInvariant

  // --- pieces every proof below uses ---

  lemma {:induction false} DealtHand(pile: seq<AnswerCard>, deck: seq<AnswerCard>, e: Entropy, shuffles: nat, n: nat)
    requires deck != []
    ensures |DrawAnswers(pile, deck, e, shuffles, n).hand| == n
    decreases n
  {
    if n > 0 {
      ShoeNotEmpty(Deck([], deck), e, shuffles);
      var full := if pile == [] then AnswerShoe(deck, e, shuffles) else pile;
      DealtHand(full[..|full| - 1], deck, e, if pile == [] then shuffles + 1 else shuffles, n - 1);
    }
  }

  // Touching a good room makes it valid again.
  lemma TouchKeeps(s: RoomState, now: int)
    requires Good(s)
    ensures Valid(Touch(s, now))
  {
  }

  lemma GoodCore(s: RoomState)
    requires Good(s)
    ensures Core(s)
  {
  }

  // --- joining ---

  lemma RosterAdds(players: map<Id, Player>, order: seq<Id>, nextId: Id, p: Player, next: Id)
    requires Roster(players, order, nextId) && nextId <= p.id < next && p.token != 0
    ensures Roster(players[p.id := p], order + [p.id], next)
  {
    assert Elements(order + [p.id]) == Elements(order) + {p.id};
    assert p.id !in order;
  }

  lemma ConnectionsAdd(players: map<Id, Player>, clients: map<Id, set<Id>>, hostID: Id, p: Player)
    requires Connections(players, clients, hostID) && p.id !in players && p.id != 0
    requires p.connected == p.isComputer && (p.isComputer ==> hostID != 0)
    ensures Connections(players[p.id := p], clients, if hostID == 0 then p.id else hostID)
  {
  }

  lemma RoundShapeAdds(phase: Phase, order: seq<Id>, judgeIndex: int, judgeID: Id,
                       subs: map<Id, Submission>, prompt: Option<PromptCard>, player: Id)
    requires RoundShape(phase, order, judgeIndex, judgeID, subs, prompt)
    ensures RoundShape(phase, order + [player], judgeIndex, judgeID, subs, prompt)
  {
  }

  lemma ScoresAdd(phase: Phase, players: map<Id, Player>, limit: int, p: Player)
    requires Scores(phase, players, limit) && p.score == 0 && limit >= 1 && p.id !in players
    ensures Scores(phase, players[p.id := p], limit)
  {
  }

  lemma TableAdds(players: map<Id, Player>, subs: map<Id, Submission>, nextId: Id, p: Player, next: Id)
    requires Table(players, subs, nextId) && nextId <= next && p.id !in players
    ensures Table(players[p.id := p], subs, next)
    ensures !HasSubmission(subs, p.id)
  {
  }

  lemma SevenCardsAdd(players: map<Id, Player>, subs: map<Id, Submission>, p: Player)
    requires SevenCards(players, subs) && !HasSubmission(subs, p.id) && |p.hand| == HAND_SIZE
    ensures SevenCards(players[p.id := p], subs)
  {
  }

  lemma FlagsAdd(players: map<Id, Player>, judgeID: Id, nextId: Id, p: Player, next: Id)
    requires JudgeFlags(players, judgeID, nextId) && !p.isJudge && nextId <= p.id < next
    ensures JudgeFlags(players[p.id := p], judgeID, next)
  {
  }

  lemma ComputersDueAdds(s: RoomState, p: Player)
    requires ComputersDue(s.phase, s.phaseSeq, s.judgeID, s.players, s.submissions, s.outstanding)
    requires p.isComputer ==> s.phase == Lobby
    ensures ComputersDue(s.phase, s.phaseSeq, s.judgeID, s.players[p.id := p], s.submissions, s.outstanding)
  {
  }

  lemma CoreFacts(s: RoomState)
    requires Core(s)
    ensures s.entropy.nextId !in s.players && s.entropy.nextId > 0 && s.deck.Playable() && Seated(s) && Distinct(s.order)
    ensures 0 !in s.players && s.entropy.nextId !in s.submissions
    ensures MIN_PLAYERS_TO_START <= s.maxPlayers && s.scoreLimit >= 1 && s.submitSecs > 0
    ensures forall id :: id in s.players <==> id in s.order
  {
    assert forall id :: id in s.players <==> id in Elements(s.order);
  }

  lemma AddPlayerKeeps(s: RoomState, name: string, isComputer: bool, now: int)
    requires Good(s) && |s.order| < s.maxPlayers
    requires isComputer ==> s.phase == Lobby && s.hostID != 0
    ensures Valid(AddPlayer(s, name, isComputer, now))
  {
    hide DrawAnswers, Roster, DeckOk, JudgeFlags, Scores, Connections, Table, RoundShape, SevenCards, Timers, ComputersDue;
    CoreFacts(s);
    DealtHand(s.answerPile, s.deck.answers, s.entropy, s.entropy.answerShuffles, HAND_SIZE);
    var r := AddPlayer(s, name, isComputer, now);
    var p := r.players[s.entropy.nextId];
    RosterAdds(s.players, s.order, s.entropy.nextId, p, r.entropy.nextId);
    ConnectionsAdd(s.players, s.clients, s.hostID, p);
    RoundShapeAdds(s.phase, s.order, s.judgeIndex, s.judgeID, s.submissions, s.prompt, p.id);
    ScoresAdd(s.phase, s.players, s.scoreLimit, p);
    TableAdds(s.players, s.submissions, s.entropy.nextId, p, r.entropy.nextId);
    SevenCardsAdd(s.players, s.submissions, p);
    FlagsAdd(s.players, s.judgeID, s.entropy.nextId, p, r.entropy.nextId);
    ComputersDueAdds(s, p);
  }

  // --- changing phase ---

  lemma ScheduledTurns(s: RoomState)
    requires Roster(s.players, s.order, s.entropy.nextId) && SevenCards(s.players, s.submissions)
    requires s.phase == Judging ==> |s.submissions| > 0
    requires Timers(s.phase, s.phaseSeq, s.phaseDeadline, s.timer, s.outstanding)
    ensures var t := ScheduleComputerTurns(s);
            ComputersDue(t.phase, t.phaseSeq, t.judgeID, t.players, t.submissions, t.outstanding)
            && Timers(t.phase, t.phaseSeq, t.phaseDeadline, t.timer, t.outstanding)
  {
    var turns := ComputerTurns(s.phase, s.phaseSeq, s.judgeID, s.order, s.players, s.submissions);
    assert forall c :: c in turns ==> c in multiset(turns);
    assert forall id :: id in s.players ==> id in Elements(s.order);
  }

  ghost predicate TimedPhase(p: Phase) {
    p == Submitting || p == Judging
  }

  lemma PhaseTimers(s: RoomState, p: Phase, seconds: int, now: int)
    requires forall c :: c in s.outstanding ==> c.seqNo <= s.phaseSeq
    requires seconds > 0 <==> TimedPhase(p)
    ensures var t := SetPhase(s, p, seconds, now);
            Timers(t.phase, t.phaseSeq, t.phaseDeadline, t.timer, t.outstanding)
  {
  }

  // Moving a room whose people and cards are in order into a phase whose
  // demands it meets, and scheduling the computers, leaves a good room.
  lemma EnterPhase(s: RoomState, p: Phase, seconds: int, now: int)
    requires Core(s) && (forall c :: c in s.outstanding ==> c.seqNo <= s.phaseSeq)
    requires seconds > 0 <==> TimedPhase(p)
    requires RoundShape(p, s.order, s.judgeIndex, s.judgeID, s.submissions, s.prompt)
    requires Scores(p, s.players, s.scoreLimit)
    requires p == Judging ==> |s.submissions| > 0
    ensures Good(ScheduleComputerTurns(SetPhase(s, p, seconds, now)))
    ensures !TimedPhase(p) ==> Good(SetPhase(s, p, seconds, now))
    ensures Seated(SetPhase(s, p, seconds, now))
  {
    hide Roster, Limits, DeckOk, JudgeFlags, Scores, Connections, Table, RoundShape, SevenCards, Timers;
    hide ComputerTurns;
    PhaseTimers(s, p, seconds, now);
    ScheduledTurns(SetPhase(s, p, seconds, now));
  }

  // --- leaving ---

  lemma {:induction false} FirstHumans(players: map<Id, Player>, order: seq<Id>)
    requires 0 !in players
    ensures var h := FirstConnectedHuman(players, order);
            (h != 0 ==> h in order && h in players && players[h].connected && !players[h].isComputer)
            && (h == 0 ==> forall id :: id in order && id in players ==> players[id].isComputer || !players[id].connected)
    ensures var h := FirstHuman(players, order);
            (h != 0 ==> h in order && h in players && !players[h].isComputer)
            && (h == 0 ==> forall id :: id in order && id in players ==> players[id].isComputer)
  {
    if order != [] {
      FirstHumans(players, order[1..]);
      assert forall id :: id in order <==> id == order[0] || id in order[1..];
    }
  }

  lemma RosterRemoves(players: map<Id, Player>, order: seq<Id>, nextId: Id, player: Id)
    requires Roster(players, order, nextId) && player in players
    ensures Roster(players - {player}, Without(order, player), nextId)
    ensures |Without(order, player)| == |order| - 1
    ensures IndexOf(order, player) < |order|
  {
    WithoutKeeps(order, player);
    assert player in Elements(order);
    assert Elements(Without(order, player)) == Elements(order) - {player};
  }

  // The host after a departure, as removePlayerLocked picks it.
  function HostAfter(players: map<Id, Player>, order: seq<Id>, hostID: Id, player: Id): Id {
    if hostID != player then hostID
    else if FirstConnectedHuman(players, order) != 0 then FirstConnectedHuman(players, order)
    else FirstHuman(players, order)
  }

  lemma ConnectionsRemove(players: map<Id, Player>, order: seq<Id>, clients: map<Id, set<Id>>, hostID: Id, player: Id)
    requires Connections(players, clients, hostID) && player in players && 0 !in players
    requires Elements(order) == players.Keys - {player}
    ensures Connections(players - {player}, clients - {player}, HostAfter(players - {player}, order, hostID, player))
  {
    hide FirstConnectedHuman, FirstHuman;
    FirstHumans(players - {player}, order);
    assert forall id :: id in players - {player} ==> id in Elements(order);
  }

  lemma TableRemoves(players: map<Id, Player>, subs: map<Id, Submission>, nextId: Id, player: Id)
    requires Table(players, subs, nextId) && player in players
    ensures Table(players - {player}, subs - SubmissionKeysOf(subs, player), nextId)
    ensures forall id :: id != player ==>
              (HasSubmission(subs - SubmissionKeysOf(subs, player), id) <==> HasSubmission(subs, id))
    ensures |subs - SubmissionKeysOf(subs, player)| == if HasSubmission(subs, player) then |subs| - 1 else |subs|
  {
    var mine := SubmissionKeysOf(subs, player);
    forall id | id != player && HasSubmission(subs, id)
      ensures HasSubmission(subs - mine, id)
    {
      var k :| k in subs && subs[k].playerId == id;
      assert k in subs - mine;
    }
    if HasSubmission(subs, player) {
      var k :| k in subs && subs[k].playerId == player;
      assert mine == {k};
      assert (subs - mine).Keys == subs.Keys - {k};
    } else {
      assert subs - mine == subs;
    }
  }

  // The cursor stays in range, and on the judge while the judge is seated.
  lemma CursorStays(order: seq<Id>, judgeIndex: int, player: Id)
    requires Distinct(order) && player in order
    ensures var rest := Without(order, player);
            var cursor := CursorAfter(order, judgeIndex, player);
            (if rest == [] then cursor == 0 else 0 <= cursor < |rest|)
            && (0 <= judgeIndex < |order| && order[judgeIndex] != player ==>
                  cursor < |rest| && rest[cursor] == order[judgeIndex])
  {
    hide Without, IndexOf;
    WithoutIsSlice(order, player);
    var i := IndexOf(order, player);
    assert order[i] == player;
    var cursor := if i <= judgeIndex then judgeIndex - 1 else judgeIndex;
    if |order| > 1 {
      ModInRange(cursor, |order| - 1);
      if 0 <= judgeIndex < |order| && order[judgeIndex] != player {
        SmallMod(cursor, |order| - 1);
      }
    }
  }

  lemma RemoveKeepsCore(s: RoomState, player: Id)
    requires Core(s) && player in s.players
    ensures Core(RemovePlayer(s, player))
    ensures |RemovePlayer(s, player).order| == |s.order| - 1
    ensures var t := RemovePlayer(s, player);
            |t.submissions| == if HasSubmission(s.submissions, player) then |s.submissions| - 1 else |s.submissions|
  {
    hide Limits, DeckOk, Roster, Connections, Table, SevenCards, JudgeFlags, HasSubmission;
    hide FirstConnectedHuman, FirstHuman, CursorAfter, Without, CardPlayed, SubmissionKeysOf;
    CoreFacts(s);
    RosterRemoves(s.players, s.order, s.entropy.nextId, player);
    RosterKeys(s.players, s.order, s.entropy.nextId);
    RosterKeys(s.players - {player}, Without(s.order, player), s.entropy.nextId);
    ConnectionsRemove(s.players, Without(s.order, player), s.clients, s.hostID, player);
    TableRemoves(s.players, s.submissions, s.entropy.nextId, player);
    SevenCardsRemove(s.players, s.submissions, player);
    FlagsRemove(s.players, s.judgeID, s.entropy.nextId, player);
    LimitsShrink(s);
  }

  lemma RosterKeys(players: map<Id, Player>, order: seq<Id>, nextId: Id)
    requires Roster(players, order, nextId)
    ensures Elements(order) == players.Keys
  {
  }

  lemma SevenCardsRemove(players: map<Id, Player>, subs: map<Id, Submission>, player: Id)
    requires SevenCards(players, subs)
    ensures SevenCards(players - {player}, subs - SubmissionKeysOf(subs, player))
  {
    var rest := subs - SubmissionKeysOf(subs, player);
    forall id | id != player && HasSubmission(subs, id)
      ensures HasSubmission(rest, id)
    {
      var k :| k in subs && subs[k].playerId == id;
      assert k in rest;
    }
  }

  lemma FlagsRemove(players: map<Id, Player>, judgeID: Id, nextId: Id, player: Id)
    requires JudgeFlags(players, judgeID, nextId)
    ensures JudgeFlags(players - {player}, judgeID, nextId)
  {
  }

  lemma LimitsShrink(s: RoomState)
    requires Limits(s.scoreLimit, s.submitSecs, s.maxPlayers, |s.order|)
    ensures forall n: nat :: n <= |s.order| ==> Limits(s.scoreLimit, s.submitSecs, s.maxPlayers, n)
  {
  }

  lemma ReturnCardsKeepsCore(s: RoomState)
    requires Core(s)
    ensures Core(ReturnCards(s))
  {
    hide Limits, DeckOk, Roster, CardPlayed, SevenCards, HasSubmission;
    var t := ReturnCards(s);
    RosterSameSeats(s.players, t.players, s.order, s.entropy.nextId);
    SevenBack(s);
  }

  lemma SevenBack(s: RoomState)
    requires SevenCards(s.players, s.submissions)
    ensures SevenCards(ReturnCards(s).players, map[])
  {
    hide CardPlayed;
    assert forall id :: !HasSubmission(map[], id);
  }

  // A roster stays one when nobody's id or token changes.
  lemma RosterSameSeats(before: map<Id, Player>, after: map<Id, Player>, order: seq<Id>, nextId: Id)
    requires Roster(before, order, nextId) && after.Keys == before.Keys
    requires forall id :: id in before ==> after[id].id == before[id].id && after[id].token == before[id].token
    ensures Roster(after, order, nextId)
  {
  }

  lemma ClearJudgeKeepsCore(s: RoomState)
    requires Core(s)
    ensures Core(ClearJudge(s))
  {
    hide Limits, DeckOk, Roster, HasSubmission;
    CoreFacts(s);
    RosterSameSeats(s.players, ClearJudge(s).players, s.order, s.entropy.nextId);
  }

  lemma ScoresOfSeated(phase: Phase, before: map<Id, Player>, after: map<Id, Player>, limit: int)
    requires Scores(phase, before, limit) && limit >= 1
    requires forall id :: id in after ==> id in before && after[id].score == before[id].score
    ensures Scores(phase, after, limit)
    ensures phase == Submitting || phase == Judging || phase == Scoring ==> Scores(Finished, after, limit) && Scores(Scoring, after, limit) && Scores(Judging, after, limit)
  {
  }

  // Touching a room before scheduling its computers changes nothing they see.
  lemma TouchThenSchedule(s: RoomState, now: int)
    requires Good(ScheduleComputerTurns(s)) && Seated(s)
    ensures Good(ScheduleComputerTurns(Touch(s, now)))
    ensures ScheduleComputerTurns(Touch(s, now)).published == Some(Persist(ScheduleComputerTurns(Touch(s, now))))
  {
    hide Limits, DeckOk, Roster, Connections, Table, SevenCards, JudgeFlags, Timers, ComputersDue, Scores, RoundShape;
    hide ComputerTurns, PersistPlayers, SortedSubmissions;
  }

  // What a departure leaves of the round: t is the room after removePlayerLocked.
  ghost predicate Departed(s: RoomState, t: RoomState, player: Id) {
    Core(s) && Core(t) && Stage(s) && player in s.players
    && t.phase == s.phase && t.phaseSeq == s.phaseSeq && t.phaseDeadline == s.phaseDeadline && t.timer == s.timer
    && t.outstanding == s.outstanding && t.scoreLimit == s.scoreLimit && t.prompt == s.prompt && t.judgeID == s.judgeID
    && t.players == s.players - {player} && |t.order| == |s.order| - 1
    && t.submissions == s.submissions - SubmissionKeysOf(s.submissions, player)
    && (forall id :: id != player ==> (HasSubmission(t.submissions, id) <==> HasSubmission(s.submissions, id)))
    && (if t.order == [] then t.judgeIndex == 0 else 0 <= t.judgeIndex < |t.order|)
    && (t.order != [] && 0 <= s.judgeIndex < |s.order| && s.order[s.judgeIndex] != player ==>
          t.order[t.judgeIndex] == s.order[s.judgeIndex])
  }

  lemma RemovalFrame(s: RoomState, player: Id)
    requires player in s.players
    ensures var t := RemovePlayer(s, player);
            t.phase == s.phase && t.phaseSeq == s.phaseSeq && t.phaseDeadline == s.phaseDeadline && t.timer == s.timer
            && t.outstanding == s.outstanding && t.scoreLimit == s.scoreLimit && t.prompt == s.prompt && t.judgeID == s.judgeID
            && t.players == s.players - {player} && t.order == Without(s.order, player)
            && t.submissions == s.submissions - SubmissionKeysOf(s.submissions, player)
            && t.judgeIndex == CursorAfter(s.order, s.judgeIndex, player)
  {
    hide FirstConnectedHuman, FirstHuman, CursorAfter, Without, HasSubmission, CardPlayed, SubmissionKeysOf;
  }

  lemma PartsOf(s: RoomState)
    requires Good(s)
    ensures Core(s) && Stage(s)
    ensures Roster(s.players, s.order, s.entropy.nextId) && Table(s.players, s.submissions, s.entropy.nextId)
  {
  }

  lemma RemovalDeparts(s: RoomState, player: Id)
    requires Good(s) && player in s.players
    ensures Departed(s, RemovePlayer(s, player), player)
  {
    hide Core, Stage, RemovePlayer, Without, CursorAfter, HasSubmission, SubmissionKeysOf;
    PartsOf(s);
    CoreFacts(s);
    RemovalFrame(s, player);
    RemoveKeepsCore(s, player);
    RosterRemoves(s.players, s.order, s.entropy.nextId, player);
    TableRemoves(s.players, s.submissions, s.entropy.nextId, player);
    CursorStays(s.order, s.judgeIndex, player);
  }

  // Outside the round nothing more happens.
  lemma DepartureAtRest(s: RoomState, t: RoomState, player: Id)
    requires Departed(s, t, player) && (s.phase == Lobby || s.phase == Finished || (s.phase == Scoring && |t.order| >= MIN_PLAYERS_TO_START))
    ensures Good(t)
  {
    hide Limits, DeckOk, Roster, Connections, Table, SevenCards, JudgeFlags, HasSubmission, Timers, ComputersDue, Scores, SubmissionKeysOf;
    CoreFacts(s);
    ScoresOfSeated(s.phase, s.players, t.players, s.scoreLimit);
    DueAfter(s, t, player);
  }

  lemma DueAfter(s: RoomState, t: RoomState, player: Id)
    requires Departed(s, t, player)
    ensures ComputersDue(t.phase, t.phaseSeq, t.judgeID, t.players, t.submissions, t.outstanding)
  {
  }

  lemma SeqsBounded(s: RoomState)
    requires Timers(s.phase, s.phaseSeq, s.phaseDeadline, s.timer, s.outstanding)
    ensures forall c :: c in s.outstanding ==> c.seqNo <= s.phaseSeq
  {
  }

  lemma DepartureBelowFloor(s: RoomState, t: RoomState, player: Id, now: int)
    requires Departed(s, t, player) && s.phase != Lobby && s.phase != Finished
    ensures Good(SetPhase(t, Finished, 0, now))
  {
    hide Limits, DeckOk, Roster, Connections, Table, SevenCards, JudgeFlags, HasSubmission, Timers, ComputersDue, Scores, SubmissionKeysOf;
    CoreFacts(s);
    SeqsBounded(s);
    ScoresOfSeated(s.phase, s.players, t.players, s.scoreLimit);
    EnterPhase(t, Finished, 0, now);
  }

  // The judge left: the round is void and every card goes home.
  lemma VoidedRound(s: RoomState, t: RoomState, player: Id)
    requires Departed(s, t, player) && (s.phase == Submitting || s.phase == Judging) && |t.order| >= MIN_PLAYERS_TO_START
    ensures var u := ClearJudge(ReturnCards(t));
            RoundShape(Scoring, u.order, u.judgeIndex, u.judgeID, u.submissions, u.prompt)
            && u.players.Keys == t.players.Keys && forall id :: id in t.players ==> u.players[id].score == t.players[id].score
  {
    hide Limits, DeckOk, Roster, Connections, Table, SevenCards, JudgeFlags, Timers, ComputersDue, Scores, SubmissionKeysOf, CardPlayed;
  }

  lemma DepartureOfJudge(s: RoomState, t: RoomState, player: Id, now: int)
    requires Departed(s, t, player) && (s.phase == Submitting || s.phase == Judging) && |t.order| >= MIN_PLAYERS_TO_START
    ensures Good(SetPhase(ClearJudge(ReturnCards(t)), Scoring, 0, now))
  {
    hide Limits, DeckOk, Roster, Connections, Table, SevenCards, JudgeFlags, HasSubmission, Timers, ComputersDue, Scores, SubmissionKeysOf, TakeBack;
    hide SetPhase, RoundShape, JudgeSeated;
    CoreFacts(s);
    SeqsBounded(s);
    VoidedRound(s, t, player);
    var u := ClearJudge(ReturnCards(t));
    ReturnCardsKeepsCore(t);
    ClearJudgeKeepsCore(ReturnCards(t));
    ScoresOfSeated(s.phase, s.players, u.players, s.scoreLimit);
    EnterPhase(u, Scoring, 0, now);
  }

  lemma JudgeStillSeated(s: RoomState, t: RoomState, player: Id)
    requires Departed(s, t, player) && (s.phase == Submitting || s.phase == Judging)
    requires |t.order| >= MIN_PLAYERS_TO_START && player != s.judgeID
    ensures JudgeSeated(t.order, t.judgeIndex, t.judgeID, t.submissions)
  {
    hide Limits, DeckOk, Roster, Connections, Table, SevenCards, JudgeFlags, HasSubmission, Timers, ComputersDue, Scores;
  }

  lemma DepartureOfAnswerer(s: RoomState, t: RoomState, player: Id, now: int)
    requires Departed(s, t, player) && s.phase == Submitting && |t.order| >= MIN_PLAYERS_TO_START && player != s.judgeID
    ensures Good(ApplyRosterLoss(t, false, now))
  {
    hide Limits, DeckOk, Roster, Connections, Table, SevenCards, JudgeFlags, HasSubmission, Timers, ComputersDue, Scores, SubmissionKeysOf;
    hide ReturnCards, ClearJudge, ComputerTurns, JudgeSeated, BeginJudging, ScheduleComputerTurns;
    CoreFacts(t);
    CoreFacts(s);
    ScoresOfSeated(s.phase, s.players, t.players, s.scoreLimit);
    JudgeStillSeated(s, t, player);
    if AllAnswerersSubmitted(t) {
      LastAnswerIn(s, t, player, now);
    } else {
      DueAfter(s, t, player);
    }
  }

  // The player who left was the only one the round was waiting for.
  lemma LastAnswerIn(s: RoomState, t: RoomState, player: Id, now: int)
    requires Departed(s, t, player) && s.phase == Submitting && |t.order| >= MIN_PLAYERS_TO_START && player != s.judgeID
    requires AllAnswerersSubmitted(t)
    ensures Seated(t) && Good(ScheduleComputerTurns(BeginJudging(t, now)))
  {
    hide Limits, DeckOk, Roster, Connections, Table, SevenCards, JudgeFlags, HasSubmission, Timers, ComputersDue, Scores, SubmissionKeysOf;
    hide JudgeSeated, Touch, ScheduleComputerTurns, SetPhase;
    CoreFacts(t);
    SeqsBounded(s);
    CoreFacts(s);
    ScoresOfSeated(s.phase, s.players, t.players, s.scoreLimit);
    JudgeStillSeated(s, t, player);
    EnterPhase(t, Judging, JUDGE_SECONDS, now);
    TouchThenSchedule(SetPhase(t, Judging, JUDGE_SECONDS, now), now);
  }

  lemma DepartureFromJudging(s: RoomState, t: RoomState, player: Id, now: int)
    requires Departed(s, t, player) && s.phase == Judging && |t.order| >= MIN_PLAYERS_TO_START && player != s.judgeID
    ensures Good(ApplyRosterLoss(t, false, now))
  {
    hide Limits, DeckOk, Roster, Connections, Table, SevenCards, JudgeFlags, HasSubmission, Timers, ComputersDue, Scores, SubmissionKeysOf;
    hide ReturnCards, ClearJudge, ComputerTurns, JudgeSeated;
    CoreFacts(t);
    CoreFacts(s);
    SeqsBounded(s);
    ScoresOfSeated(s.phase, s.players, t.players, s.scoreLimit);
    JudgeStillSeated(s, t, player);
    if |t.submissions| == 0 {
      EnterPhase(t, Scoring, 0, now);
    } else {
      DueAfter(s, t, player);
    }
  }

  lemma JudgeIsFlagged(s: RoomState, player: Id)
    requires Core(s) && player in s.players
    ensures s.players[player].isJudge <==> player == s.judgeID
  {
  }

  lemma LeaveKeeps(s: RoomState, player: Id, now: int)
    requires Good(s) && player in s.players
    ensures Valid(Leave(s, player, now).room)
  {
    hide Limits, DeckOk, Roster, Connections, Table, SevenCards, JudgeFlags, RoundShape, Timers, ComputersDue, Scores;
    hide RemovePlayer, SetPhase, ReturnCards, ClearJudge, ScheduleComputerTurns, BeginJudging, Touch;
    CoreFacts(s);
    var t := RemovePlayer(s, player);
    RemovalDeparts(s, player);
    CoreFacts(t);
    JudgeIsFlagged(s, player);
    var wasJudge := s.players[player].isJudge && (s.phase == Submitting || s.phase == Judging);
    if s.phase == Lobby || s.phase == Finished {
      DepartureAtRest(s, t, player);
    } else if |t.order| < MIN_PLAYERS_TO_START {
      DepartureBelowFloor(s, t, player, now);
    } else if wasJudge {
      DepartureOfJudge(s, t, player, now);
    } else if s.phase == Scoring {
      DepartureAtRest(s, t, player);
    } else if s.phase == Submitting {
      DepartureOfAnswerer(s, t, player, now);
    } else {
      DepartureFromJudging(s, t, player, now);
    }
    TouchKeeps(ApplyRosterLoss(t, wasJudge, now), now);
  }
}
