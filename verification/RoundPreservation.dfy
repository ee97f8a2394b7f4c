// Commands that move a round along keep the room valid.
module RoundPreservation {
  import opened Wrappers
  import opened Sequences
  import opened Cards
  import opened RoomTypes
  import opened RoomRules
  import opened RoomInvariant
  import opened RoomPreservation

  // --- answers ---

  lemma TablePlays(players: map<Id, Player>, subs: map<Id, Submission>, nextId: Id, sub: Submission)
    requires Table(players, subs, nextId) && sub.id == nextId && nextId > 0
    requires sub.playerId in players && !HasSubmission(subs, sub.playerId)
    ensures Table(players, subs[nextId := sub], nextId + 1)
    ensures forall id :: HasSubmission(subs[nextId := sub], id) <==> id == sub.playerId || HasSubmission(subs, id)
    ensures |subs[nextId := sub]| == |subs| + 1
  {
    var after := subs[nextId := sub];
    assert after[nextId].playerId == sub.playerId;
    forall id | HasSubmission(subs, id)
      ensures HasSubmission(after, id)
    {
      var k :| k in subs && subs[k].playerId == id;
      assert k in after && after[k].playerId == id;
    }
  }

  // Changing one player's hand, score or connection disturbs no seat.
  lemma SameSeat(players: map<Id, Player>, order: seq<Id>, nextId: Id, p: Player, next: Id)
    requires Roster(players, order, nextId) && p.id in players && nextId <= next
    requires p.token == players[p.id].token
    ensures Roster(players[p.id := p], order, next)
  {
  }

  lemma SameFlags(before: map<Id, Player>, after: map<Id, Player>, judgeID: Id, nextId: Id, next: Id)
    requires JudgeFlags(before, judgeID, nextId) && after.Keys == before.Keys && nextId <= next
    requires forall id :: id in before ==> after[id].isJudge == before[id].isJudge
    ensures JudgeFlags(after, judgeID, next)
  {
  }

  lemma SameConnections(before: map<Id, Player>, after: map<Id, Player>, clients: map<Id, set<Id>>, hostID: Id)
    requires Connections(before, clients, hostID) && after.Keys == before.Keys
    requires forall id :: id in before ==>
               after[id].connected == before[id].connected && after[id].isComputer == before[id].isComputer
    ensures Connections(after, clients, hostID)
  {
  }

  // The room just after a card has been put on the table.
  ghost function CardDown(s: RoomState, player: Id, i: nat, now: int): RoomState
    requires player in s.players && i < |s.players[player].hand|
  {
    var p := s.players[player];
    var sid := s.entropy.nextId;
    s.(players := s.players[player := p.(hand := p.hand[..i] + p.hand[i + 1..])],
       submissions := s.submissions[sid := Submission(sid, player, p.name, p.hand[i], now, false)],
       entropy := s.entropy.(nextId := sid + 1))
  }

  lemma CardDownKeepsCore(s: RoomState, player: Id, i: nat, now: int)
    requires Core(s) && player in s.players && !HasSubmission(s.submissions, player) && i < |s.players[player].hand|
    ensures Core(CardDown(s, player, i, now))
  {
    hide Limits, DeckOk, Roster, Connections, Table, JudgeFlags, HasSubmission, SevenCards;
    CoreFacts(s);
    var t := CardDown(s, player, i, now);
    SeatIds(s, player);
    SevenDown(s, player, i, now);
    SameSeat(s.players, s.order, s.entropy.nextId, t.players[player], t.entropy.nextId);
    SameFlags(s.players, t.players, s.judgeID, s.entropy.nextId, t.entropy.nextId);
    SameConnections(s.players, t.players, s.clients, s.hostID);
    TableSame(s.players, t.players, s.submissions, s.entropy.nextId);
    TablePlays(t.players, s.submissions, s.entropy.nextId, t.submissions[s.entropy.nextId]);
  }

  lemma SevenDown(s: RoomState, player: Id, i: nat, now: int)
    requires SevenCards(s.players, s.submissions) && player in s.players && i < |s.players[player].hand|
    requires !HasSubmission(s.submissions, player) && s.entropy.nextId !in s.submissions
    ensures var t := CardDown(s, player, i, now); SevenCards(t.players, t.submissions)
  {
    var t := CardDown(s, player, i, now);
    assert t.submissions[s.entropy.nextId].playerId == player;
    forall id | id in t.players && id != player
      ensures HasSubmission(t.submissions, id) <==> HasSubmission(s.submissions, id)
    {
      assert forall k :: k in s.submissions ==> k in t.submissions && t.submissions[k] == s.submissions[k];
    }
  }

  lemma SeatIds(s: RoomState, player: Id)
    requires Core(s) && player in s.players
    ensures s.players[player].id == player && player < s.entropy.nextId
  {
  }

  lemma TableSame(before: map<Id, Player>, after: map<Id, Player>, subs: map<Id, Submission>, nextId: Id)
    requires Table(before, subs, nextId) && before.Keys == after.Keys
    ensures Table(after, subs, nextId)
  {
  }

  // Good, but for the turn of one computer, which may just have been taken.
  ghost predicate GoodBut(s: RoomState, player: Id) {
    Core(s) && RoundShape(s.phase, s.order, s.judgeIndex, s.judgeID, s.submissions, s.prompt)
    && Scores(s.phase, s.players, s.scoreLimit)
    && Timers(s.phase, s.phaseSeq, s.phaseDeadline, s.timer, s.outstanding)
    && (s.phase == Submitting ==>
          forall id :: id in s.players && s.players[id].isComputer && id != s.judgeID && id != player && !HasSubmission(s.submissions, id)
            ==> ComputerAnswer(id, s.phaseSeq) in s.outstanding)
  }

  lemma PlayedShape(s: RoomState, player: Id, i: nat, now: int)
    requires GoodBut(s, player) && s.phase == Submitting && player in s.players && player != s.judgeID
    requires !HasSubmission(s.submissions, player) && i < |s.players[player].hand|
    ensures var t := CardDown(s, player, i, now);
            JudgeSeated(t.order, t.judgeIndex, t.judgeID, t.submissions) && |t.submissions| == |s.submissions| + 1
            && t.prompt.Some? && |t.order| >= MIN_PLAYERS_TO_START
            && ComputersDue(t.phase, t.phaseSeq, t.judgeID, t.players, t.submissions, t.outstanding)
  {
    hide Limits, DeckOk, Roster, Connections, Table, JudgeFlags, SevenCards, HasSubmission, Timers, Scores;
    CoreFacts(s);
    var t := CardDown(s, player, i, now);
    TablePlays(s.players, s.submissions, s.entropy.nextId, t.submissions[s.entropy.nextId]);
  }

  lemma PlayCardKeeps(s: RoomState, player: Id, answerId: string, now: int)
    requires GoodBut(s, player) && PlayCard(s, player, answerId, now).error.None?
    ensures var r := ScheduleComputerTurns(PlayCard(s, player, answerId, now).room); Good(r)
  {
    hide Limits, DeckOk, Roster, Connections, Table, JudgeFlags, SevenCards, HasSubmission, Timers, Scores, ComputersDue, JudgeSeated;
    hide SetPhase, Touch, ScheduleComputerTurns;
    CoreFacts(s);
    SeqsBounded(s);
    var p := s.players[player];
    var i := CardIndex(p.hand, answerId);
    var t := CardDown(s, player, i, now);
    CardDownKeepsCore(s, player, i, now);
    PlayedShape(s, player, i, now);
    ScoresOfSeated(s.phase, s.players, t.players, s.scoreLimit);
    if AllAnswerersSubmitted(t) {
      EnterPhase(t, Judging, JUDGE_SECONDS, now);
      TouchThenSchedule(SetPhase(t, Judging, JUDGE_SECONDS, now), now);
    } else {
      MoreTurns(t);
    }
  }

  // Scheduling again in the same phase is harmless.
  lemma MoreTurns(s: RoomState)
    requires Good(s)
    ensures Good(ScheduleComputerTurns(s))
  {
    hide Limits, DeckOk, Roster, Connections, Table, JudgeFlags, SevenCards, Timers, Scores, ComputersDue, ComputerTurns;
    ScheduledTurns(s);
  }

  lemma RefusedCard(s: RoomState, player: Id, answerId: string, now: int)
    requires Seated(s) && PlayCard(s, player, answerId, now).error.Some?
    ensures PlayCard(s, player, answerId, now).room == s
  {
  }

  lemma GoodIsGoodBut(s: RoomState, player: Id)
    requires Good(s)
    ensures GoodBut(s, player)
  {
  }

  lemma SubmitAnswerKeeps(s: RoomState, player: Id, answerId: string, now: int)
    requires Valid(s)
    ensures Valid(SubmitAnswer(s, player, answerId, now).room)
  {
    hide Core, Stage, PlayCard, ScheduleComputerTurns, GoodBut;
    if PlayCard(s, player, answerId, now).error.None? {
      GoodIsGoodBut(s, player);
      PlayCardKeeps(s, player, answerId, now);
      TouchKeeps(ScheduleComputerTurns(PlayCard(s, player, answerId, now).room), now);
    } else {
      RefusedCard(s, player, answerId, now);
    }
  }

  // --- verdicts ---

  lemma TableMarks(players: map<Id, Player>, subs: map<Id, Submission>, nextId: Id, sid: Id)
    requires Table(players, subs, nextId) && sid in subs
    ensures var after := subs[sid := subs[sid].(isWinner := true)];
            Table(players, after, nextId) && forall id :: HasSubmission(after, id) <==> HasSubmission(subs, id)
  {
    var after := subs[sid := subs[sid].(isWinner := true)];
    forall id | HasSubmission(subs, id)
      ensures HasSubmission(after, id)
    {
      var k :| k in subs && subs[k].playerId == id;
      assert k in after && after[k].playerId == id;
    }
    forall id | HasSubmission(after, id)
      ensures HasSubmission(subs, id)
    {
      var k :| k in after && after[k].playerId == id;
      assert k in subs && subs[k].playerId == id;
    }
  }

  lemma PointScored(players: map<Id, Player>, limit: int, winner: Id)
    requires Scores(Judging, players, limit) && winner in players
    ensures var p := players[winner].(score := players[winner].score + 1);
            Scores(if p.score >= limit then Finished else Scoring, players[winner := p], limit)
  {
  }

  // The room once the winning card is marked and the point given.
  ghost function Scored(s: RoomState, sid: Id): RoomState
    requires sid in s.submissions && s.submissions[sid].playerId in s.players
  {
    var sub := s.submissions[sid];
    var p := s.players[sub.playerId];
    s.(submissions := s.submissions[sid := sub.(isWinner := true)],
       players := s.players[sub.playerId := p.(score := p.score + 1)])
  }

  lemma ScoredKeepsCore(s: RoomState, sid: Id)
    requires Core(s) && sid in s.submissions && s.submissions[sid].playerId in s.players
    ensures Core(Scored(s, sid))
  {
    hide Limits, DeckOk, Roster, Connections, Table, JudgeFlags, HasSubmission;
    CoreFacts(s);
    var t := Scored(s, sid);
    var winner := s.submissions[sid].playerId;
    SeatIds(s, winner);
    SameSeat(s.players, s.order, s.entropy.nextId, t.players[winner], t.entropy.nextId);
    SameFlags(s.players, t.players, s.judgeID, s.entropy.nextId, t.entropy.nextId);
    SameConnections(s.players, t.players, s.clients, s.hostID);
    TableSame(s.players, t.players, s.submissions, s.entropy.nextId);
    TableMarks(t.players, s.submissions, s.entropy.nextId, sid);
  }

  lemma AuthorSeated(s: RoomState, sid: Id)
    requires Core(s) && sid in s.submissions
    ensures s.submissions[sid].playerId in s.players
  {
  }

  lemma JudgingShape(s: RoomState, sid: Id)
    requires RoundShape(Judging, s.order, s.judgeIndex, s.judgeID, s.submissions, s.prompt)
    requires sid in s.submissions && s.submissions[sid].playerId in s.players
    ensures var t := Scored(s, sid);
            RoundShape(Scoring, t.order, t.judgeIndex, t.judgeID, t.submissions, t.prompt)
            && RoundShape(Finished, t.order, t.judgeIndex, t.judgeID, t.submissions, t.prompt)
  {
  }

  lemma AwardKeeps(s: RoomState, sid: Id, now: int)
    requires Core(s) && s.phase == Judging && sid in s.submissions && (forall c :: c in s.outstanding ==> c.seqNo <= s.phaseSeq)
    requires RoundShape(Judging, s.order, s.judgeIndex, s.judgeID, s.submissions, s.prompt) && Scores(Judging, s.players, s.scoreLimit)
    ensures Valid(Award(s, sid, now)) && (Award(s, sid, now).phase == Scoring || Award(s, sid, now).phase == Finished)
  {
    hide Limits, DeckOk, Roster, Connections, Table, JudgeFlags, SevenCards, HasSubmission, Timers, Scores, ComputersDue, RoundShape;
    hide SetPhase, Touch;
    CoreFacts(s);
    AuthorSeated(s, sid);
    ScoredKeepsCore(s, sid);
    JudgingShape(s, sid);
    PointScored(s.players, s.scoreLimit, s.submissions[sid].playerId);
    var t := Scored(s, sid);
    var p := if t.players[s.submissions[sid].playerId].score >= s.scoreLimit then Finished else Scoring;
    EnterPhase(t, p, 0, now);
    TouchKeeps(SetPhase(t, p, 0, now), now);
    PhaseOf(t, p, 0, now);
  }

  lemma PhaseOf(s: RoomState, p: Phase, seconds: int, now: int)
    requires Seated(s)
    ensures Touch(SetPhase(s, p, seconds, now), now).phase == p
  {
  }

  // --- rounds ---

  // Refilling brings every listed hand up to seven and leaves the others alone.
  lemma {:induction false} RefillFills(s: RoomState, ids: seq<Id>)
    requires s.deck.answers != []
    requires forall id :: id in ids ==> id in s.players && |s.players[id].hand| <= HAND_SIZE
    ensures RefillAll(s, ids).players.Keys == s.players.Keys
    ensures forall id :: id in ids ==> |RefillAll(s, ids).players[id].hand| == HAND_SIZE
    ensures forall id :: id in s.players && id !in ids ==> RefillAll(s, ids).players[id] == s.players[id]
    decreases |ids|
  {
    hide DrawAnswers;
    if ids != [] {
      var id := ids[0];
      var n := HAND_SIZE - |s.players[id].hand|;
      DealtHand(s.answerPile, s.deck.answers, s.entropy, s.entropy.answerShuffles, n);
      var t := RefillOne(s, id);
      assert |t.players[id].hand| == HAND_SIZE;
      RefillFills(t, ids[1..]);
      assert ids == [id] + ids[1..];
    }
  }

  // The room with the new prompt out and the new judge named, hands not yet refilled.
  ghost function JudgeNamed(s: RoomState): RoomState
    requires s.deck.Playable() && s.order != [] && s.judgeIndex >= 0
  {
    var t := DrawPrompt(s.(roundNumber := s.roundNumber + 1, submissions := map[]));
    var judge := s.order[s.judgeIndex % |s.order|];
    t.(judgeID := judge, players := MarkJudge(t.players, t.order, judge))
  }

  ghost predicate HandsFit(players: map<Id, Player>) {
    forall id :: id in players ==> |players[id].hand| <= HAND_SIZE
  }

  lemma SevenFit(s: RoomState)
    requires SevenCards(s.players, s.submissions)
    ensures HandsFit(s.players)
  {
  }

  lemma FullHands(players: map<Id, Player>)
    requires forall id :: id in players ==> |players[id].hand| == HAND_SIZE
    ensures SevenCards(players, map[])
  {
  }

  lemma EmptyTable(players: map<Id, Player>, nextId: Id)
    ensures Table(players, map[], nextId)
  {
  }

  lemma RefilledKeepsCore(s: RoomState, ids: seq<Id>)
    requires Roster(s.players, s.order, s.entropy.nextId) && Limits(s.scoreLimit, s.submitSecs, s.maxPlayers, |s.order|)
    requires DeckOk(s.fullDeck, s.deck, s.contentTier) && JudgeFlags(s.players, s.judgeID, s.entropy.nextId)
    requires Connections(s.players, s.clients, s.hostID) && s.submissions == map[] && HandsFit(s.players)
    requires forall id :: id in ids <==> id in s.players
    ensures s.deck.answers != [] && Core(RefillAll(s, ids))
  {
    hide Limits, Roster, Connections, Table, JudgeFlags, SevenCards, HasSubmission, RefillAll;
    var r := RefillAll(s, ids);
    RefillAllFrame(s, ids);
    RefillFills(s, ids);
    RosterSameSeats(s.players, r.players, s.order, s.entropy.nextId);
    SameFlags(s.players, r.players, s.judgeID, s.entropy.nextId, s.entropy.nextId);
    SameConnections(s.players, r.players, s.clients, s.hostID);
    FullHands(r.players);
    EmptyTable(r.players, s.entropy.nextId);
  }

  lemma JudgeNamedFacts(s: RoomState)
    requires Core(s) && s.order != [] && 0 <= s.judgeIndex < |s.order|
    ensures var t := JudgeNamed(s);
            Roster(t.players, t.order, t.entropy.nextId) && JudgeFlags(t.players, t.judgeID, t.entropy.nextId)
            && Connections(t.players, t.clients, t.hostID) && HandsFit(t.players) && t.judgeID == s.order[s.judgeIndex]
            && t == s.(roundNumber := t.roundNumber, submissions := map[], prompt := t.prompt, promptPile := t.promptPile,
                       entropy := t.entropy, judgeID := t.judgeID, players := t.players)
            && t.prompt.Some?
            && t.players.Keys == s.players.Keys
            && forall id :: id in s.players ==> t.players[id].score == s.players[id].score
  {
    hide Limits, Roster, Connections, Table, SevenCards, HasSubmission, PromptShoe;
    CoreFacts(s);
    SevenFit(s);
    SmallMod(s.judgeIndex, |s.order|);
    var t := JudgeNamed(s);
    RosterSameSeats(s.players, t.players, s.order, s.entropy.nextId);
    SeatIds(s, t.judgeID);
    SameConnections(s.players, t.players, s.clients, s.hostID);
  }

  lemma BeginRoundKeeps(s: RoomState, now: int)
    requires Core(s) && (forall c :: c in s.outstanding ==> c.seqNo <= s.phaseSeq)
    requires |s.order| >= MIN_PLAYERS_TO_START && 0 <= s.judgeIndex < |s.order|
    requires Scores(Submitting, s.players, s.scoreLimit)
    ensures Valid(ScheduleComputerTurns(BeginRound(s, now)))
  {
    hide Limits, DeckOk, Roster, Connections, Table, JudgeFlags, SevenCards, HasSubmission, Timers, Scores, ComputersDue;
    hide SetPhase, Touch, RefillAll, MarkJudge, ScheduleComputerTurns, DrawPrompt;
    CoreFacts(s);
    JudgeNamedFacts(s);
    var t := JudgeNamed(s);
    PlayableDeck(s);
    RefilledKeepsCore(t, t.order);
    RefillAllFrame(t, t.order);
    var u := RefillAll(t, t.order);
    CoreFacts(u);
    ScoresOfSeated(Submitting, s.players, u.players, s.scoreLimit);
    NobodySubmitted();
    EnterPhase(u, Submitting, u.submitSecs, now);
    TouchThenSchedule(SetPhase(u, Submitting, u.submitSecs, now), now);
  }

  lemma PlayableDeck(s: RoomState)
    requires DeckOk(s.fullDeck, s.deck, s.contentTier)
    ensures s.deck.Playable()
  {
  }

  lemma NobodySubmitted()
    ensures forall id :: !HasSubmission(map[], id)
  {
  }

  lemma CoreIgnoresCursor(s: RoomState, cursor: int)
    requires Core(s)
    ensures Core(s.(judgeIndex := cursor))
  {
  }

  lemma StartGameKeeps(s: RoomState, caller: Id, now: int)
    requires Valid(s)
    ensures Valid(StartGame(s, caller, now).room)
  {
    hide Limits, DeckOk, Roster, Connections, Table, JudgeFlags, SevenCards, Timers, ComputersDue, RoundShape, BeginRound, ScheduleComputerTurns;
    CoreFacts(s);
    SeqsBounded(s);
    if StartGame(s, caller, now).error.None? {
      CoreIgnoresCursor(s, 0);
      BeginRoundKeeps(s.(judgeIndex := 0), now);
    }
  }

  lemma NextRoundKeeps(s: RoomState, caller: Id, now: int)
    requires Valid(s)
    ensures s.phase == Scoring ==> s.order != []
    ensures Valid(NextRound(s, caller, now).room)
  {
    hide Limits, DeckOk, Roster, Connections, Table, JudgeFlags, SevenCards, Timers, ComputersDue, BeginRound, ScheduleComputerTurns;
    CoreFacts(s);
    SeqsBounded(s);
    if NextRound(s, caller, now).error.None? {
      ModInRange(s.judgeIndex + 1, |s.order|);
      CoreIgnoresCursor(s, (s.judgeIndex + 1) % |s.order|);
      BeginRoundKeeps(s.(judgeIndex := (s.judgeIndex + 1) % |s.order|), now);
    }
  }

  // Filling the seats cannot fail: every room has room for three.
  lemma {:induction false} SeatComputersKeeps(s: RoomState, now: int)
    requires Valid(s) && s.phase == Lobby && s.hostID != 0
    ensures var r := SeatComputers(s, now);
            r.error.None? && Valid(r.room) && r.room.phase == Lobby && |r.room.order| >= MIN_PLAYERS_TO_START
    decreases MIN_PLAYERS_TO_START - |s.order|
  {
    hide Limits, DeckOk, Roster, Connections, Table, JudgeFlags, SevenCards, Timers, ComputersDue, RoundShape, Scores, DrawAnswers, Touch;
    CoreFacts(s);
    if |s.order| < MIN_PLAYERS_TO_START {
      var name := NextComputerName(NamesInUse(s));
      AddPlayerKeeps(s, name, true, now);
      AddPlayerFrame(s, name, true, now);
      SeatComputersKeeps(AddPlayer(s, name, true, now), now);
    }
  }

  lemma AddPlayerFrame(s: RoomState, name: string, isComputer: bool, now: int)
    requires Good(s)
    ensures var r := AddPlayer(s, name, isComputer, now);
            r.phase == s.phase && |r.order| == |s.order| + 1 && (s.hostID != 0 ==> r.hostID == s.hostID)
  {
    hide DrawAnswers, Limits, Roster, Connections, Table, JudgeFlags, SevenCards, Timers, ComputersDue, RoundShape, Scores;
  }

  lemma {:induction false} ComputerIndexInRange(players: map<Id, Player>, order: seq<Id>, from: nat)
    requires from <= |order| && order != []
    ensures FirstComputerIndex(players, order, from) < |order|
    decreases |order| - from
  {
    if from < |order| {
      ComputerIndexInRange(players, order, from + 1);
    }
  }

  lemma StartComputerGameKeeps(s: RoomState, caller: Id, now: int)
    requires Valid(s) && caller != 0
    ensures Valid(StartComputerGame(s, caller, now).room)
    ensures StartComputerGame(s, caller, now).error.Some? ==> StartComputerGame(s, caller, now).room == s
  {
    hide Limits, DeckOk, Roster, Connections, Table, JudgeFlags, SevenCards, Timers, ComputersDue, RoundShape, BeginRound, ScheduleComputerTurns, SeatComputers;
    CoreFacts(s);
    if caller == s.hostID && s.phase == Lobby {
      SeatComputersKeeps(s, now);
      var t := SeatComputers(s, now).room;
      CoreFacts(t);
      SeqsBounded(t);
      var cursor := FirstComputerIndex(t.players, t.order, 0);
      ComputerIndexInRange(t.players, t.order, 0);
      CoreIgnoresCursor(t, cursor);
      BeginRoundKeeps(t.(judgeIndex := cursor), now);
    }
  }

  lemma EndedShape(s: RoomState)
    requires Stage(s) && s.phase != Lobby
    ensures RoundShape(Finished, s.order, s.judgeIndex, s.judgeID, s.submissions, s.prompt)
  {
  }

  lemma EndGameKeeps(s: RoomState, caller: Id, now: int)
    requires Valid(s)
    ensures Valid(EndGame(s, caller, now).room)
  {
    hide Limits, DeckOk, Roster, Connections, Table, JudgeFlags, SevenCards, Timers, ComputersDue, RoundShape, Scores, Touch;
    CoreFacts(s);
    SeqsBounded(s);
    if EndGame(s, caller, now).error.None? {
      EndedShape(s);
      ScoresOfSeated(s.phase, s.players, s.players, s.scoreLimit);
      EnterPhase(s, Finished, 0, now);
      TouchKeeps(SetPhase(s, Finished, 0, now), now);
    }
  }

  lemma DrawPromptKeepsCore(s: RoomState)
    requires Core(s)
    ensures s.deck.prompts != [] && Core(DrawPrompt(s)) && DrawPrompt(s).prompt.Some?
    ensures var t := DrawPrompt(s);
            t == s.(prompt := t.prompt, promptPile := t.promptPile, entropy := t.entropy)
  {
    hide Limits, Connections, HasSubmission, Roster, Table, SevenCards, JudgeFlags, PromptShoe;
    CoreFacts(s);
  }

  lemma ReturnedShape(s: RoomState)
    requires Stage(s) && s.phase == Submitting
    ensures var t := ReturnCards(s);
            forall p: PromptCard :: RoundShape(Submitting, t.order, t.judgeIndex, t.judgeID, t.submissions, Some(p))
  {
    NobodySubmitted();
  }

  lemma SkipPromptKeeps(s: RoomState, caller: Id, now: int)
    requires Valid(s)
    ensures Valid(SkipPrompt(s, caller, now).room)
  {
    hide Limits, DeckOk, Roster, Connections, Table, JudgeFlags, SevenCards, Timers, ComputersDue, RoundShape, Scores, Touch;
    hide DrawPrompt, CardPlayed, ScheduleComputerTurns, SetPhase;
    CoreFacts(s);
    SeqsBounded(s);
    if SkipPrompt(s, caller, now).error.None? {
      var u := ReturnCards(s);
      ReturnCardsKeepsCore(s);
      DrawPromptKeepsCore(u);
      ReturnedShape(s);
      var t := DrawPrompt(u);
      CoreFacts(t);
      ScoresOfSeated(s.phase, s.players, t.players, s.scoreLimit);
      EnterPhase(t, Submitting, t.submitSecs, now);
      TouchKeeps(ScheduleComputerTurns(SetPhase(t, Submitting, t.submitSecs, now)), now);
    }
  }

  // The room wiped for another game, hands not yet refilled.
  ghost function Wiped(s: RoomState): RoomState {
    s.(roundNumber := 0, judgeIndex := 0, judgeID := 0, prompt := None, submissions := map[],
       players := map id | id in s.players :: ResetPlayer(s.players[id]))
  }

  lemma WipedFacts(s: RoomState)
    requires Core(s)
    ensures var t := Wiped(s);
            Roster(t.players, t.order, t.entropy.nextId) && JudgeFlags(t.players, t.judgeID, t.entropy.nextId)
            && Connections(t.players, t.clients, t.hostID) && HandsFit(t.players)
            && t.players.Keys == s.players.Keys && Scores(Lobby, t.players, t.scoreLimit)
  {
    hide Limits, DeckOk, Roster, Connections, Table, HasSubmission;
    CoreFacts(s);
    SevenFit(s);
    var t := Wiped(s);
    RosterSameSeats(s.players, t.players, s.order, s.entropy.nextId);
    SameConnections(s.players, t.players, s.clients, s.hostID);
  }

  lemma PlayAgainKeeps(s: RoomState, caller: Id, visit: seq<Id>, now: int)
    requires Valid(s) && forall id :: id in visit <==> id in s.players
    ensures Valid(PlayAgain(s, caller, visit, now).room)
  {
    hide Limits, DeckOk, Roster, Connections, Table, JudgeFlags, SevenCards, Timers, ComputersDue, Touch, RefillAll, SetPhase, ResetPlayer;
    CoreFacts(s);
    SeqsBounded(s);
    if PlayAgain(s, caller, visit, now).error.None? {
      var t := Wiped(s);
      WipedFacts(s);
      RefilledKeepsCore(t, visit);
      RefillAllFrame(t, visit);
      var u := RefillAll(t, visit);
      CoreFacts(u);
      EnterPhase(u, Lobby, 0, now);
      TouchKeeps(SetPhase(u, Lobby, 0, now), now);
    }
  }

  // --- settings ---

  lemma {:induction false} RedealFills(s: RoomState, ids: seq<Id>)
    requires s.deck.answers != [] && forall id :: id in ids ==> id in s.players
    ensures RedealAll(s, ids).players.Keys == s.players.Keys
    ensures forall id :: id in ids ==> |RedealAll(s, ids).players[id].hand| == HAND_SIZE
    ensures forall id :: id in s.players && id !in ids ==> RedealAll(s, ids).players[id] == s.players[id]
    decreases |ids|
  {
    hide DrawAnswers;
    if ids != [] {
      var id := ids[0];
      DealtHand(s.answerPile, s.deck.answers, s.entropy, s.entropy.answerShuffles, HAND_SIZE);
      var d := Deal(s, HAND_SIZE);
      var t := AfterDeal(s, d).(players := s.players[id := s.players[id].(hand := d.hand)]);
      RedealFills(t, ids[1..]);
      assert ids == [id] + ids[1..];
    }
  }

  lemma ChangeTierKeepsCore(s: RoomState, tier: Tier)
    requires Core(s) && s.submissions == map[]
    ensures s.fullDeck.For(tier).Playable() && Core(ChangeTier(s, tier))
    ensures var r := ChangeTier(s, tier);
            r == s.(contentTier := tier, deck := s.fullDeck.For(tier), players := r.players, answerPile := r.answerPile,
                    promptPile := r.promptPile, entropy := r.entropy)
            && r.players.Keys == s.players.Keys && forall id :: id in s.players ==> r.players[id].score == s.players[id].score
  {
    hide Limits, Roster, Connections, Table, JudgeFlags, SevenCards, RedealAll, AnswerShoe, PromptShoe;
    CoreFacts(s);
    assert s.fullDeck.For(tier).Playable();
    var t := FreshPiles(s.(contentTier := tier, deck := s.fullDeck.For(tier)));
    RedealAllFrame(t, s.order);
    RedealFills(t, s.order);
    var r := RedealAll(t, s.order);
    RosterSameSeats(s.players, r.players, s.order, s.entropy.nextId);
    SameFlags(s.players, r.players, s.judgeID, s.entropy.nextId, s.entropy.nextId);
    SameConnections(s.players, r.players, s.clients, s.hostID);
    FullHands(r.players);
    EmptyTable(r.players, s.entropy.nextId);
  }

  // The room with the numbers changed and the tier not yet.
  ghost function Tuned(s: RoomState, v: Settings): RoomState {
    var floor := if |s.order| < MIN_PLAYERS_TO_START then MIN_PLAYERS_TO_START else |s.order|;
    s.(scoreLimit := ClampInt(v.scoreLimit, MIN_SCORE_LIMIT, MAX_SCORE_LIMIT, s.scoreLimit),
       submitSecs := ClampInt(v.roundSeconds, MIN_SUBMIT_SECS, MAX_SUBMIT_SECS, s.submitSecs),
       maxPlayers := ClampInt(v.maxPlayers, floor, MAX_PLAYERS_CEILING, s.maxPlayers))
  }

  lemma TunedKeeps(s: RoomState, v: Settings)
    requires Good(s) && s.phase == Lobby
    ensures Good(Tuned(s, v))
  {
    hide DeckOk, Roster, Connections, Table, JudgeFlags, SevenCards, Timers, ComputersDue;
  }

  lemma UpdateSettingsKeeps(s: RoomState, caller: Id, settings: Option<Settings>, now: int)
    requires Valid(s)
    ensures s.fullDeck.For(Party).Playable() && s.fullDeck.For(Family).Playable()
    ensures Valid(UpdateSettings(s, caller, settings, now).room)
  {
    hide Limits, Roster, Connections, Table, JudgeFlags, SevenCards, Timers, ComputersDue, Scores, ChangeTier, Touch, ClampInt;
    CoreFacts(s);
    if UpdateSettings(s, caller, settings, now).error.None? {
      var v := settings.value;
      var t := Tuned(s, v);
      TunedKeeps(s, v);
      if v.contentTier.Some? && v.contentTier.value != s.contentTier {
        ChangeTierKeepsCore(t, v.contentTier.value);
        var r := ChangeTier(t, v.contentTier.value);
        CoreFacts(t);
        ScoresOfSeated(Lobby, t.players, r.players, t.scoreLimit);
        LobbyDue(r);
        TouchKeeps(r, now);
      } else {
        TouchKeeps(t, now);
      }
    }
  }

  lemma LobbyDue(s: RoomState)
    requires s.phase == Lobby
    ensures ComputersDue(s.phase, s.phaseSeq, s.judgeID, s.players, s.submissions, s.outstanding)
  {
  }

  // --- seats and sockets ---

  lemma ConnectionsUndo(players: map<Id, Player>, order: seq<Id>, clients: map<Id, set<Id>>, hostID: Id, player: Id)
    requires Connections(players, clients, hostID) && player in players && !players[player].connected && 0 !in players
    requires Elements(order) == players.Keys - {player}
    ensures Connections(players - {player}, clients,
                        if hostID == player then FirstConnectedHuman(players - {player}, order) else hostID)
  {
    hide FirstConnectedHuman;
    FirstHumans(players - {player}, order);
    assert forall id :: id in players - {player} ==> id in Elements(order);
  }

  lemma UndoJoinKeeps(s: RoomState, player: Id, now: int)
    requires Valid(s)
    ensures Valid(UndoJoin(s, player, now))
  {
    hide Limits, DeckOk, Roster, Connections, Table, JudgeFlags, SevenCards, Timers, ComputersDue, Scores, Touch, FirstConnectedHuman, Without;
    CoreFacts(s);
    if player in s.players && !s.players[player].connected && s.phase == Lobby {
      var t := s.(answerPile := s.answerPile + s.players[player].hand,
                  players := s.players - {player}, order := Without(s.order, player));
      var u := if t.hostID == player then t.(hostID := FirstConnectedHuman(t.players, t.order)) else t;
      RosterRemoves(s.players, s.order, s.entropy.nextId, player);
      RosterKeys(s.players, s.order, s.entropy.nextId);
      RosterKeys(t.players, t.order, t.entropy.nextId);
      ConnectionsUndo(s.players, t.order, s.clients, s.hostID, player);
      EmptyTable(t.players, t.entropy.nextId);
      SevenCardsRemove(s.players, s.submissions, player);
      assert s.submissions - SubmissionKeysOf(s.submissions, player) == map[];
      FlagsRemove(s.players, s.judgeID, s.entropy.nextId, player);
      LimitsShrink(s);
      ScoresOfSeated(Lobby, s.players, t.players, s.scoreLimit);
      LobbyDue(u);
      TouchKeeps(u, now);
    }
  }

  // Only sockets, connection flags and the host change here.
  lemma ReconnectedKeeps(s: RoomState, players: map<Id, Player>, clients: map<Id, set<Id>>, hostID: Id)
    requires Good(s) && players.Keys == s.players.Keys && Connections(players, clients, hostID)
    requires forall id :: id in players ==> players[id] == s.players[id].(connected := players[id].connected)
    ensures Good(s.(players := players, clients := clients, hostID := hostID))
  {
    hide Limits, DeckOk, Roster, Connections, Table, JudgeFlags, Timers, HasSubmission, RoundShape;
    CoreFacts(s);
    RosterSameSeats(s.players, players, s.order, s.entropy.nextId);
    SameFlags(s.players, players, s.judgeID, s.entropy.nextId, s.entropy.nextId);
    TableSame(s.players, players, s.submissions, s.entropy.nextId);
    ScoresOfSeated(s.phase, s.players, players, s.scoreLimit);
  }

  lemma ConnectionsAttach(players: map<Id, Player>, order: seq<Id>, clients: map<Id, set<Id>>, hostID: Id, player: Id, conns: set<Id>)
    requires Connections(players, clients, hostID) && player in players && conns != {} && 0 !in players
    requires Elements(order) == players.Keys
    ensures var after := players[player := players[player].(connected := true)];
            Connections(after, clients[player := conns],
                        if hostID !in after || !after[hostID].connected then FirstConnectedHuman(after, order) else hostID)
  {
    hide FirstConnectedHuman;
    var after := players[player := players[player].(connected := true)];
    FirstHumans(after, order);
    assert forall id :: id in after ==> id in Elements(order);
  }

  lemma AttachKeeps(s: RoomState, player: Id, token: Id, conn: Id, now: int)
    requires Valid(s)
    ensures Valid(Attach(s, player, token, conn, now).room)
  {
    hide Limits, DeckOk, Roster, Table, JudgeFlags, SevenCards, Timers, ComputersDue, Scores, RoundShape, Connections, Touch, FirstConnectedHuman;
    CoreFacts(s);
    if Attach(s, player, token, conn, now).error.None? {
      var players := s.players[player := s.players[player].(connected := true)];
      var host := if s.hostID !in players || !players[s.hostID].connected
                  then FirstConnectedHuman(players, s.order) else s.hostID;
      var conns := if player in s.clients then s.clients[player] else {};
      assert conn in conns + {conn};
      RosterKeys(s.players, s.order, s.entropy.nextId);
      ConnectionsAttach(s.players, s.order, s.clients, s.hostID, player, conns + {conn});
      ReconnectedKeeps(s, players, s.clients[player := conns + {conn}], host);
      TouchKeeps(s.(players := players, clients := s.clients[player := conns + {conn}], hostID := host), now);
    }
  }

  lemma ConnectionsDetach(players: map<Id, Player>, order: seq<Id>, clients: map<Id, set<Id>>, hostID: Id, player: Id)
    requires Connections(players, clients, hostID) && player in clients && 0 !in players
    requires Elements(order) == players.Keys
    ensures player in players
    ensures var after := players[player := players[player].(connected := false)];
            Connections(after, clients - {player}, if player == hostID then FirstConnectedHuman(after, order) else hostID)
  {
    hide FirstConnectedHuman;
    var after := players[player := players[player].(connected := false)];
    FirstHumans(after, order);
    assert forall id :: id in after ==> id in Elements(order);
  }

  lemma ConnectionsThin(players: map<Id, Player>, clients: map<Id, set<Id>>, hostID: Id, player: Id, conns: set<Id>)
    requires Connections(players, clients, hostID) && player in clients && conns != {}
    ensures Connections(players, clients[player := conns], hostID)
  {
  }

  lemma DetachKeeps(s: RoomState, player: Id, conn: Id, now: int)
    requires Valid(s)
    ensures Valid(Detach(s, player, conn, now))
  {
    hide Limits, DeckOk, Roster, Table, JudgeFlags, SevenCards, Timers, ComputersDue, Scores, RoundShape, Connections, Touch, FirstConnectedHuman;
    CoreFacts(s);
    if player !in s.clients {
      TouchKeeps(s, now);
    } else if s.clients[player] - {conn} != {} {
      var clients := s.clients[player := s.clients[player] - {conn}];
      ConnectionsThin(s.players, s.clients, s.hostID, player, s.clients[player] - {conn});
      ReconnectedKeeps(s, s.players, clients, s.hostID);
      TouchKeeps(s.(clients := clients), now);
    } else {
      RosterKeys(s.players, s.order, s.entropy.nextId);
      ConnectionsDetach(s.players, s.order, s.clients, s.hostID, player);
      var players := s.players[player := s.players[player].(connected := false)];
      var host := if player == s.hostID then FirstConnectedHuman(players, s.order) else s.hostID;
      ReconnectedKeeps(s, players, s.clients - {player}, host);
      TouchKeeps(s.(clients := s.clients - {player}, players := players, hostID := host), now);
    }
  }

  // --- timer callbacks ---

  // Taking a stale callback off the runtime's list does no harm.
  lemma StaleTaken(s: RoomState, c: Callback)
    requires Good(s) && c in s.outstanding
    requires c.seqNo != s.phaseSeq
             || (c.ComputerAnswer? && !ComputerMayAnswer(s, c.player, c.seqNo))
             || (c.ComputerVerdict? && !ComputerMayJudge(s, c.player, c.seqNo))
    ensures Good(Taken(s, c))
  {
    hide Limits, DeckOk, Roster, Connections, JudgeFlags, Scores, HasSubmission, JudgeSeated;
  }

  lemma CoreIgnoresCallbacks(s: RoomState, c: Callback)
    requires Core(s)
    ensures Core(Taken(s, c))
  {
  }

  lemma PickWinnerKeeps(s: RoomState, judge: Id, sid: Id, now: int)
    requires Valid(s)
    ensures Valid(PickWinner(s, judge, sid, now).room)
  {
    hide Core, RoundShape, Timers, Scores, ComputersDue, Award;
    SeqsBounded(s);
    if PickWinner(s, judge, sid, now).error.None? {
      AwardKeeps(s, sid, now);
    }
  }

  // A deadline that acts: answers close, or the judge's time runs out.
  lemma DeadlineActs(s: RoomState, pick: Id, now: int)
    requires Good(s) && (s.phase == Submitting || s.phase == Judging)
    requires s.phase == Judging ==> pick in s.submissions
    ensures Valid(OnDeadline(Taken(s, DeadlineTimer(s.phaseSeq)), s.phaseSeq, pick, now))
  {
    hide Limits, DeckOk, Roster, Connections, Table, JudgeFlags, SevenCards, Timers, Scores, ComputersDue, JudgeSeated, HasSubmission;
    hide SetPhase, Touch, ScheduleComputerTurns, Award;
    CoreFacts(s);
    SeqsBounded(s);
    var t := Taken(s, DeadlineTimer(s.phaseSeq));
    CoreIgnoresCallbacks(s, DeadlineTimer(s.phaseSeq));
    ScoresOfSeated(s.phase, s.players, s.players, s.scoreLimit);
    if s.phase == Submitting {
      if |s.submissions| == 0 {
        ScoringShape(s);
        EnterPhase(t, Scoring, 0, now);
        TouchThenSchedule(SetPhase(t, Scoring, 0, now), now);
      } else {
        EnterPhase(t, Judging, JUDGE_SECONDS, now);
        TouchThenSchedule(SetPhase(t, Judging, JUDGE_SECONDS, now), now);
      }
    } else {
      AwardKeeps(t, pick, now);
      MoreTurns(Award(t, pick, now));
      SchedulePublished(Award(t, pick, now));
    }
  }

  lemma ScoringShape(s: RoomState)
    requires RoundShape(Submitting, s.order, s.judgeIndex, s.judgeID, s.submissions, s.prompt)
    ensures RoundShape(Scoring, s.order, s.judgeIndex, s.judgeID, s.submissions, s.prompt)
  {
  }

  lemma SchedulePublished(s: RoomState)
    requires Valid(s)
    ensures Seated(ScheduleComputerTurns(s)) && Persist(ScheduleComputerTurns(s)) == Persist(s)
    ensures ScheduleComputerTurns(s).published == s.published
  {
    hide Good, ComputerTurns, PersistPlayers, SortedSubmissions;
  }

  lemma TakenPublished(s: RoomState, c: Callback)
    requires Valid(s)
    ensures Seated(Taken(s, c)) && Persist(Taken(s, c)) == Persist(s)
  {
    hide Good, PersistPlayers, SortedSubmissions;
  }

  lemma DeadlineKeeps(s: RoomState, seqNo: nat, pick: Id, now: int)
    requires Valid(s) && DeadlineTimer(seqNo) in s.outstanding
    requires s.phase == Judging ==> pick in s.submissions
    ensures Valid(OnDeadline(Taken(s, DeadlineTimer(seqNo)), seqNo, pick, now))
  {
    hide Core, RoundShape, Scores, ComputersDue, BeginJudging, Award, ScheduleComputerTurns, Persist;
    TakenPublished(s, DeadlineTimer(seqNo));
    if seqNo == s.phaseSeq {
      DeadlineActs(s, pick, now);
    } else {
      StaleTaken(s, DeadlineTimer(seqNo));
    }
  }

  lemma TakenTimers(s: RoomState, player: Id)
    requires Good(s)
    ensures GoodBut(Taken(s, ComputerAnswer(player, s.phaseSeq)), player)
  {
    hide Limits, DeckOk, Roster, Connections, Table, JudgeFlags, SevenCards, HasSubmission, Scores, RoundShape;
  }

  lemma ComputerAnswerKeeps(s: RoomState, player: Id, seqNo: nat, card: nat, now: int)
    requires Valid(s) && ComputerAnswer(player, seqNo) in s.outstanding
    requires ComputerMayAnswer(s, player, seqNo) ==> card < |s.players[player].hand|
    ensures Valid(SubmitComputerAnswer(Taken(s, ComputerAnswer(player, seqNo)), player, seqNo, card, now))
  {
    hide Core, Stage, PlayCard, ScheduleComputerTurns, GoodBut, Persist;
    var c := ComputerAnswer(player, seqNo);
    var t := Taken(s, c);
    TakenPublished(s, c);
    if ComputerMayAnswer(s, player, seqNo) {
      TakenTimers(s, player);
      ComputerCardAccepted(t, player, card, now);
      PlayCardKeeps(t, player, t.players[player].hand[card].id, now);
      TouchKeeps(ScheduleComputerTurns(PlayCard(t, player, t.players[player].hand[card].id, now).room), now);
    } else {
      StaleTaken(s, c);
    }
  }

  // The card a computer picks from its hand is always accepted.
  lemma ComputerCardAccepted(s: RoomState, player: Id, card: nat, now: int)
    requires Seated(s) && ComputerMayAnswer(s, player, s.phaseSeq) && card < |s.players[player].hand|
    ensures PlayCard(s, player, s.players[player].hand[card].id, now).error.None?
  {
    hide BeginJudging;
    var hand := s.players[player].hand;
    assert CardIndex(hand, hand[card].id) <= card;
  }

  lemma ComputerVerdictKeeps(s: RoomState, player: Id, seqNo: nat, pick: Id, now: int)
    requires Valid(s) && ComputerVerdict(player, seqNo) in s.outstanding
    requires ComputerMayJudge(s, player, seqNo) ==> pick in s.submissions
    ensures Valid(PickComputerWinner(Taken(s, ComputerVerdict(player, seqNo)), player, seqNo, pick, now))
  {
    hide Core, RoundShape, Timers, Scores, ComputersDue, Award, Persist;
    var c := ComputerVerdict(player, seqNo);
    TakenPublished(s, c);
    if ComputerMayJudge(s, player, seqNo) {
      CoreIgnoresCallbacks(s, c);
      SeqsBounded(s);
      AwardKeeps(Taken(s, c), pick, now);
      TouchKeeps(Award(Taken(s, c), pick, now), now);
    } else {
      StaleTaken(s, c);
    }
  }

  // --- a new room ---

  lemma NewRoomValid(code: string, deck: Deck, e: Entropy, now: int)
    requires deck.Playable() && deck.For(Family).Playable() && e.nextId > 0
    ensures Valid(Observed(NewRoom(code, deck, e, now)))
  {
    hide AnswerShoe, PromptShoe;
    var s := NewRoom(code, deck, e, now);
    assert Elements(s.order) == {};
  }
}
