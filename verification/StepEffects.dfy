// What each event changes of the seating, the judge cursor and the scores, read
// off the rules once and for all.
module StepEffects {
  import opened Wrappers
  import opened Sequences
  import opened Cards
  import opened RoomTypes
  import opened RoomRules
  import opened RoomInvariant
  import opened RoomPreservation
  import opened RoundPreservation
  import opened RoomRuns

  // The same people in the same seats with the same scores, the same cursor, and
  // no way back to the lobby.
  ghost predicate SameTable(s: RoomState, t: RoomState) {
    SameSeats(s, t) && forall id :: id in s.players ==> t.players[id].score == s.players[id].score
  }

  ghost predicate SameSeats(s: RoomState, t: RoomState) {
    t.order == s.order && t.judgeIndex == s.judgeIndex && t.players.Keys == s.players.Keys
    && t.entropy.nextId >= s.entropy.nextId && t.scoreLimit == s.scoreLimit && (s.phase != Lobby ==> t.phase != Lobby)
  }

  lemma SameTableTwice(a: RoomState, b: RoomState, c: RoomState)
    requires SameTable(a, b) && SameTable(b, c)
    ensures SameTable(a, c)
  {
  }

  lemma WrapUpTable(s: RoomState, p: Phase, seconds: int, now: int)
    requires Seated(s) && p != Lobby
    ensures SameTable(s, SetPhase(s, p, seconds, now)) && SameTable(s, Touch(s, now)) && SameTable(s, ScheduleComputerTurns(s))
    ensures SameTable(s, Touch(SetPhase(s, p, seconds, now), now)) && Seated(SetPhase(s, p, seconds, now))
  {
    hide ComputerTurns, Persist;
  }

  lemma RosterLossTable(s: RoomState, wasJudge: bool, now: int)
    requires Seated(s)
    ensures SameTable(s, ApplyRosterLoss(s, wasJudge, now))
  {
    hide ComputerTurns, Persist, HasSubmission, CardPlayed;
    if wasJudge {
      VoidTable(s, now);
    }
  }

  lemma VoidTable(s: RoomState, now: int)
    requires Seated(s)
    ensures SameTable(s, SetPhase(ClearJudge(ReturnCards(s)), Scoring, 0, now))
  {
    hide HasSubmission, CardPlayed;
  }

  // A departure takes the player out of the order and steps the cursor back.
  lemma LeaveTable(s: RoomState, player: Id, now: int)
    requires Valid(s) && player in s.players
    ensures var t := Leave(s, player, now).room;
            t.order == Without(s.order, player) && t.judgeIndex == CursorAfter(s.order, s.judgeIndex, player)
            && t.players.Keys == s.players.Keys - {player} && t.entropy.nextId >= s.entropy.nextId && t.scoreLimit == s.scoreLimit
            && (s.phase != Lobby ==> t.phase != Lobby)
            && forall id :: id in t.players ==> t.players[id].score == s.players[id].score
  {
    hide Good, Persist, CursorAfter, Without, SubmissionKeysOf, ApplyRosterLoss, FirstConnectedHuman, FirstHuman, CardPlayed;
    WithoutWithin(s.order, player);
    WithoutKeeps(s.order, player);
    var t := RemovePlayer(s, player);
    RosterLossTable(t, s.players[player].isJudge && (s.phase == Submitting || s.phase == Judging), now);
  }

  lemma JoinTable(s: RoomState, name: string, isComputer: bool, now: int)
    requires Good(s)
    ensures var t := AddPlayer(s, name, isComputer, now);
            t.order == s.order + [s.entropy.nextId] && t.judgeIndex == s.judgeIndex && t.scoreLimit == s.scoreLimit
            && t.players.Keys == s.players.Keys + {s.entropy.nextId} && t.entropy.nextId > s.entropy.nextId
            && t.phase == s.phase && t.players[s.entropy.nextId].score == 0 && s.entropy.nextId !in s.players
            && forall id :: id in s.players ==> t.players[id] == s.players[id]
  {
    hide DrawAnswers, Limits, Roster, Connections, Table, JudgeFlags, SevenCards, Timers, ComputersDue, RoundShape, Scores, DeckOk;
    CoreFacts(s);
  }

  lemma PlayCardTable(s: RoomState, player: Id, answerId: string, now: int)
    requires Seated(s)
    ensures SameTable(s, PlayCard(s, player, answerId, now).room)
  {
    hide Persist, HasSubmission;
  }

  lemma SubmitAnswerTable(s: RoomState, player: Id, answerId: string, now: int)
    requires Seated(s)
    ensures SameTable(s, SubmitAnswer(s, player, answerId, now).room)
  {
    hide Persist, PlayCard, ComputerTurns;
    PlayCardTable(s, player, answerId, now);
  }

  lemma SkipPromptTable(s: RoomState, caller: Id, now: int)
    requires Seated(s) && s.deck.Playable()
    ensures SameTable(s, SkipPrompt(s, caller, now).room)
  {
    hide Persist, ScheduleComputerTurns, PromptShoe, ReturnCards, SetPhase, Touch, SameTable;
    ItselfTable(s);
    if SkipPrompt(s, caller, now).error.None? {
      var a := ReturnCards(s);
      ReturnCardsTable(s);
      var b := DrawPrompt(a);
      var c := SetPhase(b, Submitting, b.submitSecs, now);
      DrawPromptTable(a);
      SameTableTwice(s, a, b);
      WrapUpTable(b, Submitting, b.submitSecs, now);
      SameTableTwice(s, b, c);
      ScheduledTouchTable(c, now);
      SameTableTwice(s, c, SkipPrompt(s, caller, now).room);
    }
  }

  lemma ItselfTable(s: RoomState)
    ensures SameTable(s, s)
  {
  }

  lemma ReturnCardsTable(s: RoomState)
    requires Seated(s)
    ensures SameTable(s, ReturnCards(s)) && Seated(ReturnCards(s)) && ReturnCards(s).deck == s.deck
  {
    hide CardPlayed, HasSubmission;
  }

  lemma DrawPromptTable(s: RoomState)
    requires s.deck.prompts != [] && Seated(s)
    ensures SameTable(s, DrawPrompt(s)) && Seated(DrawPrompt(s))
  {
    hide PromptShoe;
  }

  lemma ScheduledTouchTable(s: RoomState, now: int)
    requires Seated(s)
    ensures Seated(ScheduleComputerTurns(s)) && SameTable(s, Touch(ScheduleComputerTurns(s), now))
  {
    hide Persist, ComputerTurns;
  }

  lemma AttachTable(s: RoomState, player: Id, token: Id, conn: Id, now: int)
    requires Seated(s)
    ensures SameTable(s, Attach(s, player, token, conn, now).room)
  {
    hide Persist, FirstConnectedHuman;
  }

  lemma DetachTable(s: RoomState, player: Id, conn: Id, now: int)
    requires Seated(s)
    ensures SameTable(s, Detach(s, player, conn, now))
  {
    hide Persist, FirstConnectedHuman;
  }

  lemma EndGameTable(s: RoomState, caller: Id, now: int)
    requires Seated(s)
    ensures SameTable(s, EndGame(s, caller, now).room)
  {
    hide Persist;
  }

  // A new round names the player under the cursor and moves no score.
  lemma BeginRoundTable(s: RoomState, now: int)
    requires Core(s) && s.order != [] && 0 <= s.judgeIndex < |s.order|
    ensures s.deck.Playable() && Seated(s)
    ensures var t := ScheduleComputerTurns(BeginRound(s, now));
            SameTable(s, t) && t.judgeID == s.order[s.judgeIndex] && t.phase == Submitting
  {
    hide Limits, Roster, Connections, Table, JudgeFlags, SevenCards, DeckOk, RefillAll, ComputerTurns, PromptShoe, Persist;
    CoreFacts(s);
    SmallMod(s.judgeIndex, |s.order|);
    var t := JudgeNamed(s);
    RefillAllFrame(t, t.order);
  }

  lemma NextRoundTable(s: RoomState, caller: Id, now: int)
    requires Valid(s)
    ensures s.deck.Playable() && (s.phase == Scoring ==> s.order != [])
    ensures var o := NextRound(s, caller, now);
            if o.error.Some? then o.room == s
            else s.order != [] && SameTable(s.(judgeIndex := (s.judgeIndex + 1) % |s.order|), o.room)
                 && 0 <= s.judgeIndex < |s.order| && 0 <= (s.judgeIndex + 1) % |s.order| < |s.order|
                 && o.room.judgeID == s.order[(s.judgeIndex + 1) % |s.order|] && o.room.phase == Submitting
  {
    hide Limits, Roster, Connections, Table, JudgeFlags, SevenCards, DeckOk, Timers, ComputersDue, Scores, BeginRound, ScheduleComputerTurns, SameTable;
    CoreFacts(s);
    if NextRound(s, caller, now).error.None? {
      var cursor := (s.judgeIndex + 1) % |s.order|;
      ModInRange(s.judgeIndex + 1, |s.order|);
      CoreIgnoresCursor(s, cursor);
      BeginRoundTable(s.(judgeIndex := cursor), now);
    }
  }

  // An award adds one point to the author of the card and changes no other score.
  lemma AwardTable(s: RoomState, sid: Id, now: int)
    requires Core(s) && sid in s.submissions
    ensures Seated(s) && s.submissions[sid].playerId in s.players
    ensures var t := Award(s, sid, now); var winner := s.submissions[sid].playerId;
            SameSeats(s, t) && (t.phase == Scoring || t.phase == Finished)
            && forall id :: id in s.players ==> t.players[id].score == s.players[id].score + if id == winner then 1 else 0
  {
    hide Limits, Roster, Connections, JudgeFlags, SevenCards, DeckOk, Persist, HasSubmission;
    CoreFacts(s);
    AuthorSeated(s, sid);
  }

  lemma BeginJudgingTable(s: RoomState, now: int)
    requires Seated(s)
    ensures SameTable(s, ScheduleComputerTurns(BeginJudging(s, now)))
  {
    hide Persist, ComputerTurns;
  }

  lemma ScheduleAwardTable(s: RoomState, sid: Id, now: int)
    requires Core(s) && sid in s.submissions
    ensures Seated(s) && Seated(Award(s, sid, now)) && Seated(ScheduleComputerTurns(Award(s, sid, now)))
    ensures SameTable(Award(s, sid, now), ScheduleComputerTurns(Award(s, sid, now)))
    ensures SameTable(Award(s, sid, now), Touch(Award(s, sid, now), now))
    ensures ScheduleComputerTurns(Award(s, sid, now)).phase == Award(s, sid, now).phase == Touch(Award(s, sid, now), now).phase
  {
    hide Core, Persist, ComputerTurns, Award;
    CoreFacts(s);
    AwardSeats(s, sid, now);
  }

  lemma AwardSeats(s: RoomState, sid: Id, now: int)
    requires Seated(s) && sid in s.submissions
    ensures Seated(Award(s, sid, now))
  {
    hide Persist;
  }

  // --- one event of a game in progress ---

  // A game goes on until the host plays again.
  ghost predicate InGame(s: RoomState, e: Event)
    requires Valid(s) && CanStep(s, e.command)
  {
    s.phase != Lobby && !(e.command.PlayAgainCmd? && Step(s, e).error.None?)
  }

  ghost predicate Departs(s: RoomState, e: Event) {
    e.command.LeaveCmd? && e.command.player in s.players
  }

  ghost predicate Arrives(s: RoomState, e: Event)
    requires Valid(s) && CanStep(s, e.command)
  {
    e.command.JoinCmd? && Step(s, e).error.None?
  }

  ghost predicate Turns(s: RoomState, e: Event)
    requires Valid(s) && CanStep(s, e.command)
  {
    e.command.NextRoundCmd? && Step(s, e).error.None?
  }

  // The event scores the submission `Scorer(s, e)`.
  ghost function Scorer(s: RoomState, e: Event): Option<Id>
    requires Valid(s) && CanStep(s, e.command)
  {
    match e.command
    case PickWinnerCmd(_, sid) => if Step(s, e).error.None? then Some(sid) else None
    case DeadlineFires(seqNo, pick) => if seqNo == s.phaseSeq && s.phase == Judging then Some(pick) else None
    case ComputerJudges(player, seqNo, pick) => if ComputerMayJudge(s, player, seqNo) then Some(pick) else None
    case _ => None
  }

  lemma ScorerIsOnTheTable(s: RoomState, e: Event)
    requires Valid(s) && CanStep(s, e.command) && Scorer(s, e).Some?
    ensures Scorer(s, e).value in s.submissions && s.submissions[Scorer(s, e).value].playerId in s.players
    ensures s.phase == Judging
  {
    hide RoundShape, Timers, Scores, ComputersDue, Connections, SevenCards, Roster, Award;
  }

  // Every other event of a game leaves the seats, the cursor and the scores alone.
  lemma QuietTable(s: RoomState, e: Event)
    requires Valid(s) && CanStep(s, e.command) && InGame(s, e)
    requires !Departs(s, e) && !Arrives(s, e) && !Turns(s, e) && Scorer(s, e).None?
    ensures SameTable(s, After(s, e))
  {
    hide Core, Stage, Persist, SameTable, AddPlayer, Leave, Attach, Detach, BeginRound, SubmitAnswer, Award, SeatComputers, ChangeTier;
    hide EndGame, SkipPrompt, PlayCard, ScheduleComputerTurns, Touch, BeginJudging, RefillAll;
    ValidFacts(s);
    ItselfTable(s);
    match e.command {
      case LeaveCmd(player) => NobodyLeaves(s, player, e.now);
      case AttachCmd(player, token, conn) => AttachTable(s, player, token, conn, e.now);
      case DetachCmd(player, conn) => DetachTable(s, player, conn, e.now);
      case SubmitAnswerCmd(player, answerId) => SubmitAnswerTable(s, player, answerId, e.now);
      case EndGameCmd(caller) => EndGameTable(s, caller, e.now);
      case SkipPromptCmd(caller) => SkipPromptTable(s, caller, e.now);
      case DeadlineFires(seqNo, pick) =>
        TakenTable(s, DeadlineTimer(seqNo));
        BeginJudgingTable(Taken(s, DeadlineTimer(seqNo)), e.now);
        SameTableTwice(s, Taken(s, DeadlineTimer(seqNo)), ScheduleComputerTurns(BeginJudging(Taken(s, DeadlineTimer(seqNo)), e.now)));
      case ComputerAnswers(player, seqNo, card) => ComputerAnswerTable(s, player, seqNo, card, e.now);
      case ComputerJudges(player, seqNo, pick) => TakenTable(s, ComputerVerdict(player, seqNo));
      case _ =>
    }
  }

  lemma TakenTable(s: RoomState, c: Callback)
    ensures SameTable(s, Taken(s, c))
    ensures Seated(s) ==> Seated(Taken(s, c))
  {
  }

  lemma ComputerAnswerTable(s: RoomState, player: Id, seqNo: nat, card: nat, now: int)
    requires Seated(s) && (ComputerMayAnswer(s, player, seqNo) ==> card < |s.players[player].hand|)
    ensures SameTable(s, SubmitComputerAnswer(Taken(s, ComputerAnswer(player, seqNo)), player, seqNo, card, now))
  {
    hide SameTable, PlayCard, ScheduleComputerTurns, Touch;
    var t := Taken(s, ComputerAnswer(player, seqNo));
    TakenTable(s, ComputerAnswer(player, seqNo));
    if ComputerMayAnswer(t, player, seqNo) {
      var answerId := t.players[player].hand[card].id;
      PlayCardTable(t, player, answerId, now);
      var u := PlayCard(t, player, answerId, now).room;
      PlayCardSeats(t, player, answerId, now);
      ScheduledTouchTable(u, now);
      SameTableTwice(t, u, Touch(ScheduleComputerTurns(u), now));
      SameTableTwice(s, t, Touch(ScheduleComputerTurns(u), now));
    }
  }

  lemma PlayCardSeats(s: RoomState, player: Id, answerId: string, now: int)
    requires Seated(s)
    ensures Seated(PlayCard(s, player, answerId, now).room)
  {
    hide Persist, HasSubmission;
  }

  // The submission sid has won between s and t.
  ghost predicate Won(s: RoomState, t: RoomState, sid: Id) {
    sid in s.submissions && SameSeats(s, t) && (t.phase == Scoring || t.phase == Finished)
    && forall id :: id in s.players ==>
         t.players[id].score == s.players[id].score + if id == s.submissions[sid].playerId then 1 else 0
  }

  lemma DeadlineWins(s: RoomState, seqNo: nat, pick: Id, now: int)
    requires Core(s) && seqNo == s.phaseSeq && s.phase == Judging && pick in s.submissions
    ensures Seated(Taken(s, DeadlineTimer(seqNo))) && Won(s, OnDeadline(Taken(s, DeadlineTimer(seqNo)), seqNo, pick, now), pick)
  {
    hide Core, Persist, Award, ScheduleComputerTurns, Touch;
    CoreFacts(s);
    CoreIgnoresCallbacks(s, DeadlineTimer(seqNo));
    AwardTable(Taken(s, DeadlineTimer(seqNo)), pick, now);
    ScheduleAwardTable(Taken(s, DeadlineTimer(seqNo)), pick, now);
  }

  lemma VerdictWins(s: RoomState, player: Id, seqNo: nat, pick: Id, now: int)
    requires Core(s) && ComputerMayJudge(s, player, seqNo) && pick in s.submissions
    ensures var t := Taken(s, ComputerVerdict(player, seqNo));
            Seated(t) && Won(s, PickComputerWinner(t, player, seqNo, pick, now), pick)
  {
    hide Core, Persist, Award, ScheduleComputerTurns, Touch;
    CoreFacts(s);
    CoreIgnoresCallbacks(s, ComputerVerdict(player, seqNo));
    AwardTable(Taken(s, ComputerVerdict(player, seqNo)), pick, now);
    ScheduleAwardTable(Taken(s, ComputerVerdict(player, seqNo)), pick, now);
  }

  lemma ScoringTable(s: RoomState, e: Event)
    requires Valid(s) && CanStep(s, e.command) && Scorer(s, e).Some?
    ensures Won(s, After(s, e), Scorer(s, e).value)
  {
    hide Good, Persist, Award, OnDeadline, PickComputerWinner, Won;
    GoodCore(s);
    CoreFacts(s);
    ScorerIsOnTheTable(s, e);
    var sid := Scorer(s, e).value;
    match e.command {
      case PickWinnerCmd(_, _) => PickWins(s, sid, e.now);
      case DeadlineFires(seqNo, _) => DeadlineWins(s, seqNo, sid, e.now);
      case ComputerJudges(player, seqNo, _) => VerdictWins(s, player, seqNo, sid, e.now);
    }
  }

  lemma PickWins(s: RoomState, sid: Id, now: int)
    requires Core(s) && sid in s.submissions
    ensures Seated(s) && Won(s, Award(s, sid, now), sid)
  {
    hide Core, Award;
    CoreFacts(s);
    AwardTable(s, sid, now);
  }

  lemma DepartureEffect(s: RoomState, e: Event)
    requires Valid(s) && CanStep(s, e.command) && Departs(s, e)
    ensures var t := After(s, e); var player := e.command.player;
            t.order == Without(s.order, player) && t.judgeIndex == CursorAfter(s.order, s.judgeIndex, player)
            && t.players.Keys == s.players.Keys - {player} && t.entropy.nextId >= s.entropy.nextId && t.scoreLimit == s.scoreLimit
            && (s.phase != Lobby ==> t.phase != Lobby)
            && forall id :: id in t.players ==> t.players[id].score == s.players[id].score
  {
    hide Good, Persist, Leave, Without, CursorAfter;
    LeaveTable(s, e.command.player, e.now);
  }

  lemma ArrivalEffect(s: RoomState, e: Event)
    requires Valid(s) && CanStep(s, e.command) && Arrives(s, e)
    ensures var t := After(s, e);
            t.order == s.order + [s.entropy.nextId] && t.judgeIndex == s.judgeIndex && t.scoreLimit == s.scoreLimit
            && t.players.Keys == s.players.Keys + {s.entropy.nextId} && t.entropy.nextId > s.entropy.nextId
            && t.phase == s.phase && t.players[s.entropy.nextId].score == 0 && s.entropy.nextId !in s.players
            && forall id :: id in s.players ==> t.players[id] == s.players[id]
  {
    hide Core, Stage, Persist, AddPlayer;
    JoinTable(s, e.command.name, false, e.now);
  }

  // The chair goes to the player after the cursor.
  lemma TurnEffect(s: RoomState, e: Event)
    requires Valid(s) && CanStep(s, e.command) && Turns(s, e)
    ensures var t := After(s, e);
            s.order != [] && 0 <= s.judgeIndex < |s.order| && t.phase == Submitting
            && t.order == s.order && t.judgeIndex == (s.judgeIndex + 1) % |s.order| && t.players.Keys == s.players.Keys
            && t.entropy.nextId >= s.entropy.nextId && 0 <= t.judgeIndex < |s.order| && t.judgeID == s.order[t.judgeIndex]
            && t.scoreLimit == s.scoreLimit && forall id :: id in s.players ==> t.players[id].score == s.players[id].score
  {
    hide Good, Persist, NextRound;
    NextRoundTable(s, e.command.caller, e.now);
  }
}
