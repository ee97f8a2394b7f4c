// Revisions, phase sequence numbers, and why stale timers do no harm.
module RoomClock {
  import opened Wrappers
  import opened Sequences
  import opened Cards
  import opened RoomTypes
  import opened RoomRules
  import opened RoomInvariant
  import opened RoomPreservation
  import opened RoundPreservation
  import opened RoomRuns

  // The sequence number only grows, and while it stands still so do the phase,
  // its deadline, the judge, and the cards of everyone still seated. Ids are
  // never handed out twice.
  ghost predicate Later(s: RoomState, t: RoomState) {
    t.phaseSeq >= s.phaseSeq && t.entropy.nextId >= s.entropy.nextId
    && (forall id :: id in t.players ==> id in s.players || id >= s.entropy.nextId)
    && (t.phaseSeq == s.phaseSeq ==>
          t.phase == s.phase && t.phaseDeadline == s.phaseDeadline && t.judgeID == s.judgeID
          && forall id :: id in t.players && HasSubmission(s.submissions, id) ==> HasSubmission(t.submissions, id))
  }

  // A different persisted state has a higher revision.
  ghost predicate Revised(s: RoomState, t: RoomState)
    requires Seated(s) && Seated(t)
  {
    t.stateVersion >= s.stateVersion && (t.stateVersion == s.stateVersion ==> Persist(t) == Persist(s))
  }

  // --- one event ---

  lemma JoinClock(s: RoomState, name: string, isComputer: bool, now: int)
    requires Seated(s) && s.deck.answers != []
    ensures var t := AddPlayer(s, name, isComputer, now);
            Seated(t) && Later(s, t) && t.stateVersion > s.stateVersion && t.deck == s.deck && t.phaseSeq == s.phaseSeq
  {
    hide DrawAnswers, Persist, HasSubmission;
  }

  lemma UndoJoinClock(s: RoomState, player: Id, now: int)
    requires Seated(s) && Distinct(s.order)
    ensures var t := UndoJoin(s, player, now); Later(s, t) && (t == s || t.stateVersion > s.stateVersion)
  {
    hide Persist, HasSubmission, Without, FirstConnectedHuman;
  }

  lemma LossClock(s: RoomState, wasJudge: bool, now: int)
    requires Seated(s)
    ensures var t := ApplyRosterLoss(s, wasJudge, now); Later(s, t) && t.stateVersion >= s.stateVersion && Seated(t)
  {
    hide Persist, HasSubmission, CardPlayed, ComputerTurns;
  }

  lemma RemovalClock(s: RoomState, player: Id)
    requires player in s.players && Seated(s) && Distinct(s.order)
    ensures var t := RemovePlayer(s, player); Seated(t) && Later(s, t) && t.stateVersion == s.stateVersion
  {
    hide Without, CursorAfter, FirstConnectedHuman, FirstHuman, CardPlayed;
    WithoutKeeps(s.order, player);
    WithoutWithin(s.order, player);
    var t := RemovePlayer(s, player);
    forall id | id in t.players && HasSubmission(s.submissions, id)
      ensures HasSubmission(t.submissions, id)
    {
      var k :| k in s.submissions && s.submissions[k].playerId == id;
      assert k in t.submissions;
    }
  }

  lemma LaterTwice(a: RoomState, b: RoomState, c: RoomState)
    requires Later(a, b) && Later(b, c)
    requires b.phaseSeq == c.phaseSeq == a.phaseSeq ==> forall id :: id in c.players ==> id in b.players
    ensures Later(a, c)
  {
    hide HasSubmission;
  }

  lemma LossKeepsPlayers(s: RoomState, wasJudge: bool, now: int)
    requires Seated(s)
    ensures ApplyRosterLoss(s, wasJudge, now).players.Keys == s.players.Keys
  {
    hide Persist, HasSubmission, CardPlayed, ComputerTurns;
  }

  lemma LeaveClock(s: RoomState, player: Id, now: int)
    requires Seated(s) && Distinct(s.order) && player in s.players
    ensures var t := Leave(s, player, now).room; Later(s, t) && t.stateVersion > s.stateVersion
  {
    hide Persist, HasSubmission, RemovePlayer, ApplyRosterLoss, Later;
    RemovalClock(s, player);
    var t := RemovePlayer(s, player);
    var wasJudge := s.players[player].isJudge && (s.phase == Submitting || s.phase == Judging);
    LossClock(t, wasJudge, now);
    LossKeepsPlayers(t, wasJudge, now);
    LaterTwice(s, t, ApplyRosterLoss(t, wasJudge, now));
    TouchClock(ApplyRosterLoss(t, wasJudge, now), now);
    TouchSeats(ApplyRosterLoss(t, wasJudge, now), now);
    LaterTwice(s, ApplyRosterLoss(t, wasJudge, now), Leave(s, player, now).room);
  }

  lemma TouchSeats(s: RoomState, now: int)
    requires Seated(s)
    ensures Touch(s, now).players == s.players
  {
  }

  lemma TouchClock(s: RoomState, now: int)
    requires Seated(s)
    ensures Later(s, Touch(s, now)) && Touch(s, now).stateVersion == s.stateVersion + 1
  {
    hide Persist, HasSubmission;
  }

  lemma AttachClock(s: RoomState, player: Id, token: Id, conn: Id, now: int)
    requires Seated(s)
    ensures var t := Attach(s, player, token, conn, now).room; Later(s, t) && (t == s || t.stateVersion > s.stateVersion)
  {
    hide Persist, HasSubmission, FirstConnectedHuman;
  }

  lemma DetachClock(s: RoomState, player: Id, conn: Id, now: int)
    requires Seated(s)
    ensures var t := Detach(s, player, conn, now); Later(s, t) && t.stateVersion > s.stateVersion
  {
    hide Persist, HasSubmission, FirstConnectedHuman;
  }

  lemma BeginRoundClock(s: RoomState, now: int)
    requires s.deck.Playable() && s.order != [] && s.judgeIndex >= 0 && Seated(s)
    ensures var t := ScheduleComputerTurns(BeginRound(s, now));
            t.phaseSeq > s.phaseSeq && t.stateVersion > s.stateVersion
            && t.players.Keys == s.players.Keys && t.entropy.nextId >= s.entropy.nextId
  {
    hide Persist, RefillAll, MarkJudge, ComputerTurns, PromptShoe;
    var t := JudgeNamed(s);
    MarkedSeats(s.players, s.order, t.judgeID);
    RefillAllFrame(t, t.order);
  }

  lemma MarkedSeats(players: map<Id, Player>, order: seq<Id>, judge: Id)
    ensures MarkJudge(players, order, judge).Keys == players.Keys
  {
  }

  lemma PlayCardClock(s: RoomState, player: Id, answerId: string, now: int)
    requires Seated(s) && s.entropy.nextId !in s.submissions
    ensures var t := PlayCard(s, player, answerId, now).room;
            Seated(t) && Later(s, t) && t.stateVersion >= s.stateVersion && t.players.Keys == s.players.Keys
  {
    hide Persist;
    if PlayCard(s, player, answerId, now).error.None? {
      var i := CardIndex(s.players[player].hand, answerId);
      var t := CardDown(s, player, i, now);
      forall id | HasSubmission(s.submissions, id)
        ensures HasSubmission(t.submissions, id)
      {
        var k :| k in s.submissions && s.submissions[k].playerId == id;
        assert k in t.submissions && t.submissions[k].playerId == id;
      }
    }
  }

  lemma WrapUpClock(s: RoomState, now: int)
    requires Seated(s)
    ensures Seated(ScheduleComputerTurns(s))
    ensures var t := Touch(ScheduleComputerTurns(s), now);
            Later(s, t) && t.stateVersion == s.stateVersion + 1 && t.players == s.players
  {
    hide Persist, HasSubmission, ComputerTurns;
  }

  lemma SubmitAnswerClock(s: RoomState, player: Id, answerId: string, now: int)
    requires Seated(s) && s.entropy.nextId !in s.submissions
    ensures var o := SubmitAnswer(s, player, answerId, now);
            Later(s, o.room) && (o.error.None? ==> o.room.stateVersion > s.stateVersion)
  {
    hide Persist, HasSubmission, PlayCard, ScheduleComputerTurns, Touch, Later;
    PlayCardClock(s, player, answerId, now);
    var t := PlayCard(s, player, answerId, now).room;
    WrapUpClock(t, now);
    LaterTwice(s, t, Touch(ScheduleComputerTurns(t), now));
  }

  lemma AwardClock(s: RoomState, sid: Id, now: int)
    requires Seated(s) && sid in s.submissions
    ensures var t := Award(s, sid, now);
            Seated(t) && t.phaseSeq > s.phaseSeq && t.stateVersion > s.stateVersion && t.players.Keys == s.players.Keys
            && t.entropy == s.entropy
  {
    hide Persist, HasSubmission;
  }

  lemma SkipPromptClock(s: RoomState, caller: Id, now: int)
    requires Seated(s) && s.deck.Playable()
    ensures var o := SkipPrompt(s, caller, now);
            Later(s, o.room) && (o.error.None? ==> o.room.stateVersion > s.stateVersion)
  {
    hide Persist, HasSubmission, CardPlayed, PromptShoe, ComputerTurns;
  }

  lemma PlayAgainClock(s: RoomState, caller: Id, visit: seq<Id>, now: int)
    requires Seated(s) && s.deck.Playable() && forall id :: id in visit ==> id in s.players
    ensures var o := PlayAgain(s, caller, visit, now);
            Later(s, o.room) && (o.error.None? ==> o.room.stateVersion > s.stateVersion)
  {
    hide Persist, HasSubmission, RefillAll;
    RefillAllFrame(Wiped(s), visit);
  }

  lemma SettingsClock(s: RoomState, caller: Id, settings: Option<Settings>, now: int)
    requires Seated(s) && s.fullDeck.For(Party).Playable() && s.fullDeck.For(Family).Playable()
    ensures var o := UpdateSettings(s, caller, settings, now);
            Later(s, o.room) && (o.error.None? ==> o.room.stateVersion > s.stateVersion)
  {
    hide Persist, HasSubmission, RedealAll, ClampInt, AnswerShoe, PromptShoe;
    if UpdateSettings(s, caller, settings, now).error.None? && settings.value.contentTier.Some? {
      var tier := settings.value.contentTier.value;
      var t := Tuned(s, settings.value);
      RedealAllFrame(FreshPiles(t.(contentTier := tier, deck := t.fullDeck.For(tier))), t.order);
    }
  }

  lemma {:induction false} SeatComputersClock(s: RoomState, now: int)
    requires Seated(s) && s.deck.Playable()
    ensures var r := SeatComputers(s, now).room;
            Seated(r) && r.stateVersion >= s.stateVersion && r.phaseSeq == s.phaseSeq && r.entropy.nextId >= s.entropy.nextId
            && forall id :: id in r.players ==> id in s.players || id >= s.entropy.nextId
    decreases MIN_PLAYERS_TO_START - |s.order|
  {
    hide Persist, HasSubmission, DrawAnswers, NamesInUse;
    if |s.order| < MIN_PLAYERS_TO_START && |s.order| < s.maxPlayers {
      var name := NextComputerName(NamesInUse(s));
      JoinClock(s, name, true, now);
      SeatComputersClock(AddPlayer(s, name, true, now), now);
    }
  }

  lemma Unchanged(s: RoomState, t: RoomState)
    requires Seated(s) && (t == s || exists c :: t == Taken(s, c))
    ensures Seated(t) && Later(s, t) && Revised(s, t)
  {
    hide HasSubmission, PersistPlayers, SortedSubmissions;
  }

  lemma Renewed(s: RoomState, t: RoomState)
    requires Seated(s) && Seated(t) && t.stateVersion > s.stateVersion
    ensures Revised(s, t)
  {
  }

  lemma FreshSubmissionId(s: RoomState)
    requires Core(s)
    ensures s.entropy.nextId !in s.submissions
  {
  }

  lemma StepClock(s: RoomState, e: Event)
    requires Valid(s) && CanStep(s, e.command)
    ensures Later(s, After(s, e)) && Revised(s, After(s, e))
  {
    hide Good, Persist, Later, Revised, AddPlayer, Leave, Attach, Detach, StartGame, StartComputerGame, SubmitAnswer, PickWinner;
    hide NextRound, EndGame, SkipPrompt, PlayAgain, UpdateSettings, OnDeadline, SubmitComputerAnswer, PickComputerWinner, UndoJoin;
    GoodCore(s);
    ValidFacts(s);
    FreshSubmissionId(s);
    var t := After(s, e);
    Unchanged(s, s);
    match e.command {
      case JoinCmd(name) => JoinTicks(s, name, e.now);
      case UndoJoinCmd(player) => UndoJoinTicks(s, player, e.now);
      case LeaveCmd(player) => LeaveTicks(s, player, e.now);
      case AttachCmd(player, token, conn) => AttachTicks(s, player, token, conn, e.now);
      case DetachCmd(player, conn) =>
        DetachClock(s, player, conn, e.now);
        Renewed(s, t);
      case StartGameCmd(caller) => StartGameTicks(s, caller, e.now);
      case StartComputerGameCmd(caller) => StartComputerGameTicks(s, caller, e.now);
      case SubmitAnswerCmd(player, answerId) => SubmitAnswerTicks(s, player, answerId, e.now);
      case PickWinnerCmd(judge, sid) => PickWinnerTicks(s, judge, sid, e.now);
      case NextRoundCmd(caller) => NextRoundTicks(s, caller, e.now);
      case EndGameCmd(caller) => EndGameTicks(s, caller, e.now);
      case SkipPromptCmd(caller) => SkipPromptTicks(s, caller, e.now);
      case PlayAgainCmd(caller, visit) => PlayAgainTicks(s, caller, visit, e.now);
      case UpdateSettingsCmd(caller, settings) => SettingsTicks(s, caller, settings, e.now);
      case DeadlineFires(seqNo, pick) => DeadlineTicks(s, seqNo, pick, e.now);
      case ComputerAnswers(player, seqNo, card) => ComputerAnswerTicks(s, player, seqNo, card, e.now);
      case ComputerJudges(player, seqNo, pick) => ComputerVerdictTicks(s, player, seqNo, pick, e.now);
    }
  }

  ghost predicate Fine(s: RoomState, t: RoomState) {
    Seated(s) && Seated(t) && Later(s, t) && Revised(s, t)
  }

  lemma JoinTicks(s: RoomState, name: string, now: int)
    requires Seated(s) && s.deck.answers != []
    ensures Fine(s, TryJoin(s, name, now).room)
  {
    hide Persist, Later, AddPlayer;
    Unchanged(s, s);
    JoinClock(s, name, false, now);
  }

  lemma UndoJoinTicks(s: RoomState, player: Id, now: int)
    requires Valid(s)
    ensures Fine(s, UndoJoin(s, player, now))
  {
    hide Good, Persist, Later, UndoJoin;
    Unchanged(s, s);
    UndoJoinClock(s, player, now);
    UndoJoinKeeps(s, player, now);
  }

  lemma LeaveTicks(s: RoomState, player: Id, now: int)
    requires Valid(s)
    ensures Fine(s, Leave(s, player, now).room)
  {
    hide Good, Persist, Later, Leave;
    Unchanged(s, s);
    if player in s.players {
      ValidIsGood(s);
      LeaveClock(s, player, now);
      LeaveKeeps(s, player, now);
    } else {
      NobodyLeaves(s, player, now);
    }
  }

  lemma AttachTicks(s: RoomState, player: Id, token: Id, conn: Id, now: int)
    requires Valid(s)
    ensures Fine(s, Attach(s, player, token, conn, now).room)
  {
    hide Good, Persist, Later, Attach;
    Unchanged(s, s);
    AttachClock(s, player, token, conn, now);
    AttachKeeps(s, player, token, conn, now);
  }

  lemma RoundTicks(s: RoomState, t: RoomState)
    requires Seated(s) && Seated(t) && t.phaseSeq > s.phaseSeq && t.stateVersion > s.stateVersion
    requires t.entropy.nextId >= s.entropy.nextId && forall id :: id in t.players ==> id in s.players || id >= s.entropy.nextId
    ensures Fine(s, t)
  {
  }

  lemma StartGameTicks(s: RoomState, caller: Id, now: int)
    requires Valid(s)
    ensures s.deck.Playable() && Fine(s, StartGame(s, caller, now).room)
  {
    hide Good, Persist, Fine, Later, Revised, BeginRound, ScheduleComputerTurns;
    ValidFacts(s);
    Unchanged(s, s);
    FineItself(s);
    if StartGame(s, caller, now).error.None? {
      StartGameKeeps(s, caller, now);
      BeginRoundClock(s.(judgeIndex := 0), now);
      RoundTicks(s, StartGame(s, caller, now).room);
    }
  }

  lemma FineItself(s: RoomState)
    requires Seated(s)
    ensures Fine(s, s)
  {
    hide Persist;
  }

  lemma NextRoundTicks(s: RoomState, caller: Id, now: int)
    requires Valid(s)
    ensures s.deck.Playable() && (s.phase == Scoring ==> s.order != []) && Fine(s, NextRound(s, caller, now).room)
  {
    hide Good, Persist, Fine, Later, Revised, BeginRound, ScheduleComputerTurns;
    ValidFacts(s);
    FineItself(s);
    if NextRound(s, caller, now).error.None? {
      ModInRange(s.judgeIndex + 1, |s.order|);
      NextRoundKeeps(s, caller, now);
      BeginRoundClock(s.(judgeIndex := (s.judgeIndex + 1) % |s.order|), now);
      RoundTicks(s, NextRound(s, caller, now).room);
    }
  }

  lemma StartComputerGameTicks(s: RoomState, caller: Id, now: int)
    requires Valid(s) && caller != 0
    ensures s.deck.Playable() && Fine(s, StartComputerGame(s, caller, now).room)
  {
    hide Good, Persist, Fine, Later, Revised, BeginRound, ScheduleComputerTurns, SeatComputers;
    ValidFacts(s);
    FineItself(s);
    StartComputerGameKeeps(s, caller, now);
    if StartComputerGame(s, caller, now).error.None? {
      SeatComputersClock(s, now);
      SeatComputersFrame(s, now);
      var t := SeatComputers(s, now).room;
      BeginRoundClock(t.(judgeIndex := FirstComputerIndex(t.players, t.order, 0)), now);
      RoundTicks(s, StartComputerGame(s, caller, now).room);
    }
  }

  lemma SubmitAnswerTicks(s: RoomState, player: Id, answerId: string, now: int)
    requires Valid(s) && s.entropy.nextId !in s.submissions
    ensures Fine(s, SubmitAnswer(s, player, answerId, now).room)
  {
    hide Good, Persist, Later, PlayCard, ScheduleComputerTurns, Touch;
    Unchanged(s, s);
    SubmitAnswerClock(s, player, answerId, now);
    SubmitAnswerKeeps(s, player, answerId, now);
    if PlayCard(s, player, answerId, now).error.Some? {
      RefusedCard(s, player, answerId, now);
    }
  }

  lemma PickWinnerTicks(s: RoomState, judge: Id, sid: Id, now: int)
    requires Valid(s)
    ensures Fine(s, PickWinner(s, judge, sid, now).room)
  {
    hide Good, Persist, Fine, Later, Award;
    FineItself(s);
    if PickWinner(s, judge, sid, now).error.None? {
      AwardClock(s, sid, now);
      RoundTicks(s, Award(s, sid, now));
    }
  }

  lemma EndGameTicks(s: RoomState, caller: Id, now: int)
    requires Valid(s)
    ensures Fine(s, EndGame(s, caller, now).room)
  {
    hide Good, Persist, HasSubmission;
  }

  lemma SkipPromptTicks(s: RoomState, caller: Id, now: int)
    requires Valid(s) && s.deck.Playable()
    ensures Fine(s, SkipPrompt(s, caller, now).room)
  {
    hide Good, Persist, Later, DrawPrompt, ReturnCards, ScheduleComputerTurns, SetPhase, Touch;
    Unchanged(s, s);
    SkipPromptClock(s, caller, now);
    SkipPromptKeeps(s, caller, now);
  }

  lemma PlayAgainTicks(s: RoomState, caller: Id, visit: seq<Id>, now: int)
    requires Valid(s) && s.deck.Playable() && forall id :: id in visit <==> id in s.players
    ensures Fine(s, PlayAgain(s, caller, visit, now).room)
  {
    hide Good, Persist, Later, RefillAll, SetPhase, Touch;
    Unchanged(s, s);
    PlayAgainClock(s, caller, visit, now);
    PlayAgainKeeps(s, caller, visit, now);
  }

  lemma SettingsTicks(s: RoomState, caller: Id, settings: Option<Settings>, now: int)
    requires Valid(s)
    ensures s.fullDeck.For(Party).Playable() && s.fullDeck.For(Family).Playable()
    ensures Fine(s, UpdateSettings(s, caller, settings, now).room)
  {
    hide Good, Persist, Later, ChangeTier, ClampInt, Touch;
    ValidFacts(s);
    Unchanged(s, s);
    SettingsClock(s, caller, settings, now);
    UpdateSettingsKeeps(s, caller, settings, now);
  }

  lemma TakenFine(s: RoomState, c: Callback)
    requires Seated(s)
    ensures Fine(s, Taken(s, c))
  {
    hide Persist;
    Unchanged(s, Taken(s, c));
  }

  lemma DeadlineTicks(s: RoomState, seqNo: nat, pick: Id, now: int)
    requires Valid(s) && (s.phase == Judging ==> pick in s.submissions)
    ensures Fine(s, OnDeadline(Taken(s, DeadlineTimer(seqNo)), seqNo, pick, now))
  {
    hide Good, Persist, Fine, Later, Revised, Award, BeginJudging, ScheduleComputerTurns;
    var t := Taken(s, DeadlineTimer(seqNo));
    TakenFine(s, DeadlineTimer(seqNo));
    if seqNo == s.phaseSeq && s.phase == Submitting {
      JudgingClock(t, now);
      RoundTicks(s, ScheduleComputerTurns(BeginJudging(t, now)));
    } else if seqNo == s.phaseSeq && s.phase == Judging {
      AwardClock(t, pick, now);
      ScheduledClock(Award(t, pick, now));
      RoundTicks(s, ScheduleComputerTurns(Award(t, pick, now)));
    }
  }

  lemma JudgingClock(s: RoomState, now: int)
    requires Seated(s)
    ensures var t := ScheduleComputerTurns(BeginJudging(s, now));
            Seated(t) && t.phaseSeq > s.phaseSeq && t.stateVersion > s.stateVersion && t.players == s.players && t.entropy == s.entropy
  {
    hide Persist, ComputerTurns;
  }

  lemma ScheduledClock(s: RoomState)
    requires Seated(s)
    ensures var t := ScheduleComputerTurns(s);
            Seated(t) && t.phaseSeq == s.phaseSeq && t.stateVersion == s.stateVersion && t.players == s.players && t.entropy == s.entropy
  {
    hide ComputerTurns;
  }

  lemma ComputerAnswerTicks(s: RoomState, player: Id, seqNo: nat, card: nat, now: int)
    requires Valid(s) && s.entropy.nextId !in s.submissions
    requires ComputerMayAnswer(s, player, seqNo) ==> card < |s.players[player].hand|
    ensures Fine(s, SubmitComputerAnswer(Taken(s, ComputerAnswer(player, seqNo)), player, seqNo, card, now))
  {
    hide Good, Persist, Later, HasSubmission, PlayCard, ScheduleComputerTurns, Touch;
    var t := Taken(s, ComputerAnswer(player, seqNo));
    TakenFine(s, ComputerAnswer(player, seqNo));
    if ComputerMayAnswer(t, player, seqNo) {
      var answerId := t.players[player].hand[card].id;
      PlayCardClock(t, player, answerId, now);
      var u := PlayCard(t, player, answerId, now).room;
      WrapUpClock(u, now);
      LaterTwice(t, u, Touch(ScheduleComputerTurns(u), now));
      LaterTwice(s, t, Touch(ScheduleComputerTurns(u), now));
      TouchedSeats(u, now);
    }
  }

  lemma TouchedSeats(s: RoomState, now: int)
    requires Seated(s)
    ensures Seated(ScheduleComputerTurns(s)) && Seated(Touch(ScheduleComputerTurns(s), now))
  {
  }

  lemma ComputerVerdictTicks(s: RoomState, player: Id, seqNo: nat, pick: Id, now: int)
    requires Valid(s) && (ComputerMayJudge(s, player, seqNo) ==> pick in s.submissions)
    ensures Fine(s, PickComputerWinner(Taken(s, ComputerVerdict(player, seqNo)), player, seqNo, pick, now))
  {
    hide Good, Persist, Fine, Later, Revised, Award;
    var t := Taken(s, ComputerVerdict(player, seqNo));
    TakenFine(s, ComputerVerdict(player, seqNo));
    if ComputerMayJudge(s, player, seqNo) {
      AwardClock(t, pick, now);
      RoundTicks(s, Touch(Award(t, pick, now), now));
    }
  }

  // --- runs ---

  lemma AuthorIds(s: RoomState, id: Id)
    requires Valid(s) && HasSubmission(s.submissions, id)
    ensures id < s.entropy.nextId
  {
  }

  // Time runs forward: along any run the sequence number and the revision only
  // grow; equal sequence numbers mean the same phase with the same deadline, and
  // equal revisions mean the same persisted state.
  lemma {:induction false} ClockOfARun(s: RoomState, es: seq<Event>)
    requires Valid(s) && Run(s, es)
    ensures Later(s, End(s, es)) && Revised(s, End(s, es))
    decreases |es|
  {
    hide Good, CanStep, Step, Persist, HasSubmission;
    if es == [] {
      Unchanged(s, s);
    } else {
      var t := After(s, es[0]);
      StepClock(s, es[0]);
      ClockOfARun(t, es[1..]);
      forall id: Id | HasSubmission(s.submissions, id)
        ensures id < s.entropy.nextId
      {
        AuthorIds(s, id);
      }
    }
  }

  // --- what the observer is told ---

  // The observer is told of the room as it then is, or nothing has changed that it
  // would be told.
  ghost predicate Tells(s: RoomState, t: RoomState) {
    t.published.Some? || (t.published == s.published && t.stateVersion == s.stateVersion)
  }

  lemma {:induction false} SeatingTells(s: RoomState, now: int)
    requires Seated(s) && s.deck.Playable()
    ensures Tells(s, SeatComputers(s, now).room)
    decreases MIN_PLAYERS_TO_START - |s.order|
  {
    hide DrawAnswers, Persist, NamesInUse;
    if |s.order| < MIN_PLAYERS_TO_START && |s.order| < s.maxPlayers {
      SeatingTells(AddPlayer(s, NextComputerName(NamesInUse(s)), true, now), now);
    }
  }

  lemma RoundTells(s: RoomState, now: int)
    requires s.deck.Playable() && s.order != [] && s.judgeIndex >= 0 && Seated(s)
    ensures ScheduleComputerTurns(BeginRound(s, now)).published.Some?
  {
    hide Persist, RefillAll, MarkJudge, ComputerTurns, PromptShoe;
  }

  lemma StepTells(s: RoomState, e: Event)
    requires Valid(s) && CanStep(s, e.command)
    ensures Tells(s, After(s, e))
  {
    hide Good, Persist, BeginRound, ScheduleComputerTurns, SeatComputers, RemovePlayer, ApplyRosterLoss, PlayCard, SetPhase, DrawPrompt;
    hide ReturnCards, RefillAll, ChangeTier, ClampInt, ComputerMayAnswer, ComputerMayJudge, AddPlayer, BeginJudging, Award, FirstConnectedHuman;
    ValidFacts(s);
    match e.command {
      case JoinCmd(name) => JoinTells(s, name, e.now);
      case StartGameCmd(caller) =>
        if StartGame(s, caller, e.now).error.None? {
          RoundTells(s.(judgeIndex := 0), e.now);
        }
      case StartComputerGameCmd(caller) => StartComputerTells(s, caller, e.now);
      case NextRoundCmd(caller) =>
        if NextRound(s, caller, e.now).error.None? {
          ModInRange(s.judgeIndex + 1, |s.order|);
          RoundTells(s.(judgeIndex := (s.judgeIndex + 1) % |s.order|), e.now);
        }
      case PickWinnerCmd(judge, sid) =>
        if PickWinner(s, judge, sid, e.now).error.None? {
          AwardTells(s, sid, e.now);
        }
      case SubmitAnswerCmd(player, answerId) => RefusedPlay(s, player, answerId, e.now);
      case DeadlineFires(seqNo, pick) => DeadlineTells(Taken(s, DeadlineTimer(seqNo)), seqNo, pick, e.now);
      case _ =>
    }
  }

  lemma RefusedPlay(s: RoomState, player: Id, answerId: string, now: int)
    requires Seated(s)
    ensures PlayCard(s, player, answerId, now).error.Some? ==> PlayCard(s, player, answerId, now).room == s
  {
    hide Persist, HasSubmission, BeginJudging;
  }

  lemma JoinTells(s: RoomState, name: string, now: int)
    requires Seated(s) && s.deck.answers != []
    ensures Tells(s, TryJoin(s, name, now).room)
  {
    hide Persist, DrawAnswers;
  }

  lemma StartComputerTells(s: RoomState, caller: Id, now: int)
    requires Seated(s) && s.deck.Playable()
    ensures Tells(s, StartComputerGame(s, caller, now).room)
  {
    hide Persist, BeginRound, ScheduleComputerTurns, SeatComputers;
    SeatingTells(s, now);
    SeatComputersFrame(s, now);
    var r := SeatComputers(s, now);
    if StartComputerGame(s, caller, now).error.None? {
      var t := r.room;
      RoundTells(t.(judgeIndex := FirstComputerIndex(t.players, t.order, 0)), now);
    }
  }

  lemma AwardTells(s: RoomState, sid: Id, now: int)
    requires Seated(s) && sid in s.submissions
    ensures Award(s, sid, now).published.Some? && Seated(Award(s, sid, now))
    ensures ScheduleComputerTurns(Award(s, sid, now)).published.Some?
  {
    hide Persist, ComputerTurns;
  }

  lemma DeadlineTells(s: RoomState, seqNo: nat, pick: Id, now: int)
    requires Seated(s) && (s.phase == Judging ==> pick in s.submissions)
    ensures Tells(s, OnDeadline(s, seqNo, pick, now))
  {
    hide Persist, Award, ComputerTurns;
    if s.phase == Judging {
      AwardTells(s, pick, now);
    }
  }

  lemma {:induction false} RunTells(s: RoomState, es: seq<Event>)
    requires Valid(s) && Run(s, es)
    ensures Tells(s, End(s, es))
    decreases |es|
  {
    hide Good, CanStep, Step, Persist;
    if es != [] {
      StepTells(s, es[0]);
      StepClock(s, es[0]);
      RunTells(After(s, es[0]), es[1..]);
    }
  }

  // Two moments of a run with the same revision have the same persisted state; and
  // at every moment the observer holds the room as it is, unless it has been told
  // nothing yet and the room is still as it was opened or brought back.
  lemma RevisionsAreFaithful(s: RoomState, es: seq<Event>)
    requires Valid(s) && Run(s, es)
    ensures End(s, es).stateVersion >= s.stateVersion
    ensures End(s, es).stateVersion == s.stateVersion ==> Persist(End(s, es)) == Persist(s)
    ensures End(s, es).published == Some(Persist(End(s, es)))
            || (s.published.None? && End(s, es).published.None? && Persist(End(s, es)) == Persist(s))
  {
    hide Good, CanStep, Step, Persist, Later;
    ClockOfARun(s, es);
    RunTells(s, es);
  }

  // A deadline callback that does anything does it in the phase it was armed
  // for, whatever has happened in between.
  lemma DeadlineActsInItsPhase(s: RoomState, es: seq<Event>, seqNo: nat, pick: Id, now: int)
    requires Valid(s) && Run(s, es) && seqNo == s.phaseSeq && DeadlineTimer(seqNo) in s.outstanding
    requires CanStep(End(s, es), DeadlineFires(seqNo, pick))
    requires After(End(s, es), Event(now, DeadlineFires(seqNo, pick))) != Taken(End(s, es), DeadlineTimer(seqNo))
    ensures End(s, es).phase == s.phase && End(s, es).phaseDeadline == s.phaseDeadline && End(s, es).phaseSeq == s.phaseSeq
  {
    hide Good, CanStep, Persist, BeginJudging, Award, ScheduleComputerTurns, HasSubmission, Revised;
    ClockOfARun(s, es);
  }

  lemma DeadlineAdvances(s: RoomState, pick: Id, now: int)
    requires Valid(s) && CanStep(s, DeadlineFires(s.phaseSeq, pick))
    ensures After(s, Event(now, DeadlineFires(s.phaseSeq, pick))).phaseSeq > s.phaseSeq
  {
    hide Core, RoundShape, Scores, ComputersDue, Persist, Award, BeginJudging, ScheduleComputerTurns;
    var t := Taken(s, DeadlineTimer(s.phaseSeq));
    if s.phase == Submitting {
      JudgingClock(t, now);
    } else {
      AwardClock(t, pick, now);
      ScheduledClock(Award(t, pick, now));
    }
  }

  // Having acted once, a sequence number's deadline never acts again.
  lemma DeadlineActsOnce(s: RoomState, pick: Id, now: int, es: seq<Event>, pick': Id, now': int)
    requires Valid(s) && CanStep(s, DeadlineFires(s.phaseSeq, pick))
    requires var t := After(s, Event(now, DeadlineFires(s.phaseSeq, pick)));
             Run(t, es) && CanStep(End(t, es), DeadlineFires(s.phaseSeq, pick'))
    ensures var u := End(After(s, Event(now, DeadlineFires(s.phaseSeq, pick))), es);
            After(u, Event(now', DeadlineFires(s.phaseSeq, pick'))) == Taken(u, DeadlineTimer(s.phaseSeq))
  {
    hide Good, CanStep, Persist, Step, HasSubmission, Revised;
    DeadlineAdvances(s, pick, now);
    var t := After(s, Event(now, DeadlineFires(s.phaseSeq, pick)));
    ClockOfARun(t, es);
    StaleDeadline(End(t, es), s.phaseSeq, pick', now');
  }

  lemma StaleDeadline(s: RoomState, seqNo: nat, pick: Id, now: int)
    requires Valid(s) && CanStep(s, DeadlineFires(seqNo, pick)) && s.phaseSeq != seqNo
    ensures After(s, Event(now, DeadlineFires(seqNo, pick))) == Taken(s, DeadlineTimer(seqNo))
  {
    hide Good, Persist, BeginJudging, Award, ScheduleComputerTurns;
  }

  lemma ComputerActs(s: RoomState, player: Id, card: nat, now: int)
    requires Valid(s) && CanStep(s, ComputerAnswers(player, s.phaseSeq, card)) && ComputerMayAnswer(s, player, s.phaseSeq)
    ensures var t := After(s, Event(now, ComputerAnswers(player, s.phaseSeq, card)));
            t.phaseSeq > s.phaseSeq || HasSubmission(t.submissions, player)
    ensures player < s.entropy.nextId
  {
    hide Scores, ComputersDue, RoundShape, Timers, Persist, ComputerTurns, Connections, Table, Limits, JudgeFlags, SevenCards, DeckOk;
    CoreFacts(s);
    var t := Taken(s, ComputerAnswer(player, s.phaseSeq));
    ComputerCardAccepted(t, player, card, now);
    var i := CardIndex(t.players[player].hand, t.players[player].hand[card].id);
    var u := CardDown(t, player, i, now);
    assert u.submissions[s.entropy.nextId].playerId == player;
  }

  // However often a computer's turn was scheduled, it plays one card per
  // sequence number.
  lemma ComputerPlaysOnce(s: RoomState, player: Id, card: nat, now: int, es: seq<Event>)
    requires Valid(s) && CanStep(s, ComputerAnswers(player, s.phaseSeq, card)) && ComputerMayAnswer(s, player, s.phaseSeq)
    requires Run(After(s, Event(now, ComputerAnswers(player, s.phaseSeq, card))), es)
    ensures !ComputerMayAnswer(End(After(s, Event(now, ComputerAnswers(player, s.phaseSeq, card))), es), player, s.phaseSeq)
  {
    hide Good, CanStep, Persist, Step, HasSubmission, Revised;
    ComputerActs(s, player, card, now);
    StepClock(s, Event(now, ComputerAnswers(player, s.phaseSeq, card)));
    ClockOfARun(After(s, Event(now, ComputerAnswers(player, s.phaseSeq, card))), es);
  }
}
