// Who may play a card and who may award a round, and exactly what that changes:
// stated of the room before and after, in every valid room.
module PlayLaws {
  import opened Wrappers
  import opened Sequences
  import opened Cards
  import opened RoomTypes
  import opened RoomRules
  import opened RoomInvariant
  import opened RoomPreservation
  import opened RoundPreservation
  import opened RoomRuns
  import opened RoomLaws

  // The first card of this id in the hand.
  ghost predicate FirstOfId(hand: seq<AnswerCard>, answerId: string, i: nat) {
    i < |hand| && hand[i].id == answerId && forall j :: 0 <= j < i ==> hand[j].id != answerId
  }

  // The phase is entered now, with its time to run.
  ghost predicate Entered(s: RoomState, t: RoomState, phase: Phase, now: int) {
    t.phase == phase && t.phaseSeq == s.phaseSeq + 1
    && t.phaseDeadline == (match phase
                           case Submitting => Some(now + s.submitSecs)
                           case Judging => Some(now + JUDGE_SECONDS)
                           case _ => None)
    && t.timer == (if phase == Submitting || phase == Judging then Some(s.phaseSeq + 1) else None)
  }

  ghost predicate SamePhase(s: RoomState, t: RoomState) {
    t.phase == s.phase && t.phaseSeq == s.phaseSeq && t.phaseDeadline == s.phaseDeadline && t.timer == s.timer
  }

  // The room has changed at this instant, under a new revision, and the observer has
  // been told. In a valid room what it has been told is how the room now is.
  ghost predicate Told(s: RoomState, t: RoomState, now: int) {
    t.updatedAt == now && t.stateVersion > s.stateVersion && t.published.Some?
  }

  // --- playing a card ---

  // The card at this position of the hand is on the table under a fresh id, and out
  // of the hand. Answers close when it was the last one missing. Nothing else of the
  // room is touched.
  ghost predicate Played(s: RoomState, t: RoomState, player: Id, i: nat, now: int)
    requires player in s.players && i < |s.players[player].hand|
  {
    var p, sid := s.players[player], s.entropy.nextId;
    t == s.(players := s.players[player := p.(hand := p.hand[..i] + p.hand[i + 1..])],
            submissions := s.submissions[sid := Submission(sid, player, p.name, p.hand[i], now, false)],
            entropy := s.entropy.(nextId := sid + 1),
            phase := t.phase, phaseSeq := t.phaseSeq, phaseDeadline := t.phaseDeadline, timer := t.timer, outstanding := t.outstanding,
            updatedAt := t.updatedAt, stateVersion := t.stateVersion, published := t.published)
    && (if forall id :: id in s.order && id != s.judgeID ==> HasSubmission(t.submissions, id)
        then Entered(s, t, Judging, now) else SamePhase(s, t))
  }

  lemma CardGoesDown(s: RoomState, player: Id, answerId: string, now: int)
    requires GoodBut(s, player) && s.phase == Submitting && player in s.players && player != s.judgeID
    requires !HasSubmission(s.submissions, player) && CardIndex(s.players[player].hand, answerId) < |s.players[player].hand|
    ensures Seated(s) && Seated(PlayCard(s, player, answerId, now).room) && PlayCard(s, player, answerId, now).error.None?
    ensures var i := CardIndex(s.players[player].hand, answerId);
            var t := Touch(ScheduleComputerTurns(PlayCard(s, player, answerId, now).room), now);
            Played(s, t, player, i, now) && Told(s, t, now)
  {
    hide Limits, DeckOk, Roster, Connections, Table, JudgeFlags, SevenCards, HasSubmission, Timers, Scores, ComputersDue, JudgeSeated;
    hide ScheduleComputerTurns, Touch, PlayCard, AllAnswerersSubmitted, BeginJudging, CardIndex;
    CoreFacts(s);
    var i := CardIndex(s.players[player].hand, answerId);
    var d := CardDown(s, player, i, now);
    AcceptedCard(s, player, answerId, now);
    CardDownKeepsCore(s, player, i, now);
    CoreFacts(d);
    PlayedShape(s, player, i, now);
    CountingIsCoverage(d);
    if AllAnswerersSubmitted(d) {
      JudgingWrapped(d, now);
    } else {
      Wrapped(d, now);
    }
  }

  lemma AcceptedCard(s: RoomState, player: Id, answerId: string, now: int)
    requires Seated(s) && s.phase == Submitting && player in s.players && player != s.judgeID && !HasSubmission(s.submissions, player)
    requires CardIndex(s.players[player].hand, answerId) < |s.players[player].hand|
    ensures var d := CardDown(s, player, CardIndex(s.players[player].hand, answerId), now);
            Seated(d) && PlayCard(s, player, answerId, now)
                         == Outcome(if AllAnswerersSubmitted(d) then BeginJudging(d, now) else d, None)
  {
    hide Persist, CardIndex, HasSubmission, BeginJudging;
  }

  lemma Wrapped(s: RoomState, now: int)
    requires Seated(s)
    ensures var t := Touch(ScheduleComputerTurns(s), now);
            t == s.(outstanding := t.outstanding, updatedAt := now, stateVersion := s.stateVersion + 1, published := t.published)
            && t.published.Some?
  {
    hide ComputerTurns, Persist;
  }

  lemma JudgingWrapped(s: RoomState, now: int)
    requires Seated(s) && s.submissions != map[]
    ensures Seated(BeginJudging(s, now))
    ensures var t := Touch(ScheduleComputerTurns(BeginJudging(s, now)), now);
            Entered(s, t, Judging, now) && Told(s, t, now)
            && t == s.(phase := t.phase, phaseSeq := t.phaseSeq, phaseDeadline := t.phaseDeadline, timer := t.timer,
                       outstanding := t.outstanding, updatedAt := now, stateVersion := t.stateVersion, published := t.published)
  {
    hide ComputerTurns, Persist;
  }

  lemma CardIndexFinds(hand: seq<AnswerCard>, answerId: string)
    ensures CardIndex(hand, answerId) < |hand| <==> exists i :: 0 <= i < |hand| && hand[i].id == answerId
    ensures CardIndex(hand, answerId) < |hand| ==> FirstOfId(hand, answerId, CardIndex(hand, answerId))
  {
  }

  // A card is accepted exactly from a seated player who is not the judge and has
  // none on the table, while answers come in, if it is in the hand; and it is the
  // first card of that id that is played.
  lemma SubmitAnswerLaw(s: RoomState, player: Id, answerId: string, now: int)
    requires Valid(s)
    ensures var o := Step(s, Event(now, SubmitAnswerCmd(player, answerId)));
            (o.error.None? <==>
               s.phase == Submitting && player in s.players && player != s.judgeID
               && (forall k :: k in s.submissions ==> s.submissions[k].playerId != player)
               && exists i :: 0 <= i < |s.players[player].hand| && s.players[player].hand[i].id == answerId)
            && (o.error.None? ==>
                  Told(s, o.room, now)
                  && exists i: nat :: FirstOfId(s.players[player].hand, answerId, i) && Played(s, o.room, player, i, now))
  {
    hide Core, Stage, ScheduleComputerTurns, GoodBut, Persist, Played, FirstOfId, CardIndex, BeginJudging;
    ValidFacts(s);
    var o := SubmitAnswer(s, player, answerId, now);
    if player in s.players {
      CardIndexFinds(s.players[player].hand, answerId);
    }
    if o.error.None? {
      GoodIsGoodBut(s, player);
      CardGoesDown(s, player, answerId, now);
      var i := CardIndex(s.players[player].hand, answerId);
      assert FirstOfId(s.players[player].hand, answerId, i) && Played(s, o.room, player, i, now);
    }
  }

  // A computer's turn plays the card its choice falls on, or one of the same id
  // before it in the hand, exactly when the turn is still its own.
  lemma ComputerAnswerLaw(s: RoomState, player: Id, seqNo: nat, card: nat, now: int)
    requires Valid(s) && CanStep(s, ComputerAnswers(player, seqNo, card))
    ensures var t := After(s, Event(now, ComputerAnswers(player, seqNo, card)));
            var u := s.(outstanding := s.outstanding - multiset{ComputerAnswer(player, seqNo)});
            if seqNo == s.phaseSeq && s.phase == Submitting && player in s.players && s.players[player].isComputer && player != s.judgeID
               && (forall k :: k in s.submissions ==> s.submissions[k].playerId != player)
            then card < |s.players[player].hand| && Told(s, t, now)
                 && exists i: nat :: FirstOfId(s.players[player].hand, s.players[player].hand[card].id, i) && Played(u, t, player, i, now)
            else t == u
  {
    hide Limits, DeckOk, Roster, Connections, Table, JudgeFlags, RoundShape, Scores, Timers, ComputersDue, Persist;
    hide PlayCard, ScheduleComputerTurns, Touch, Played, FirstOfId, CardIndex;
    CoreFacts(s);
    var u := Taken(s, ComputerAnswer(player, seqNo));
    if seqNo == s.phaseSeq && s.phase == Submitting && player in s.players && s.players[player].isComputer && player != s.judgeID
       && (forall k :: k in s.submissions ==> s.submissions[k].playerId != player)
    {
      var hand := s.players[player].hand;
      assert ComputerMayAnswer(s, player, seqNo);
      CardIndexFinds(hand, hand[card].id);
      TurnTaken(s, player, seqNo);
      CardGoesDown(u, player, hand[card].id, now);
      var i := CardIndex(hand, hand[card].id);
      assert FirstOfId(hand, hand[card].id, i) && Played(u, After(s, Event(now, ComputerAnswers(player, seqNo, card))), player, i, now);
    }
  }

  lemma TurnTaken(s: RoomState, player: Id, seqNo: nat)
    requires Valid(s)
    ensures var u := Taken(s, ComputerAnswer(player, seqNo)); GoodBut(u, player) && Seated(u)
  {
    hide Limits, DeckOk, Roster, Connections, Table, JudgeFlags, SevenCards, RoundShape, Scores, Persist, HasSubmission;
    CoreFacts(s);
    TakenCore(s, ComputerAnswer(player, seqNo));
  }

  lemma TakenCore(s: RoomState, c: Callback)
    requires Core(s)
    ensures Core(Taken(s, c)) && Seated(Taken(s, c))
  {
    CoreFacts(s);
  }

  // --- awarding a round ---

  // The submission is marked, its author has one point more, and the game is over
  // exactly if that reaches the limit. Nothing else of the room is touched.
  ghost predicate Awarded(s: RoomState, t: RoomState, sid: Id, now: int) {
    sid in s.submissions && s.submissions[sid].playerId in s.players
    && var sub := s.submissions[sid]; var author := s.players[sub.playerId];
       t == s.(submissions := s.submissions[sid := sub.(isWinner := true)],
               players := s.players[sub.playerId := author.(score := author.score + 1)],
               phase := t.phase, phaseSeq := t.phaseSeq, phaseDeadline := t.phaseDeadline, timer := t.timer, outstanding := t.outstanding,
               updatedAt := t.updatedAt, stateVersion := t.stateVersion, published := t.published)
       && Entered(s, t, if author.score + 1 >= s.scoreLimit then Finished else Scoring, now)
  }

  lemma AwardIsAwarded(s: RoomState, sid: Id, now: int)
    requires Core(s) && sid in s.submissions
    ensures Seated(s) && Awarded(s, Award(s, sid, now), sid, now) && Seated(Award(s, sid, now))
    ensures Told(s, Award(s, sid, now), now)
    ensures Awarded(s, Touch(Award(s, sid, now), now), sid, now) && Told(s, Touch(Award(s, sid, now), now), now)
    ensures Awarded(s, ScheduleComputerTurns(Award(s, sid, now)), sid, now) && Told(s, ScheduleComputerTurns(Award(s, sid, now)), now)
  {
    hide Core, Persist, Award, Awarded, Touch, ScheduleComputerTurns;
    CoreFacts(s);
    AuthorSeated(s, sid);
    MarkedAndScored(s, sid, now);
    var t := Award(s, sid, now);
    TouchedAward(s, t, sid, now);
    ScheduledAward(s, t, sid, now);
  }

  lemma MarkedAndScored(s: RoomState, sid: Id, now: int)
    requires Seated(s) && sid in s.submissions && s.submissions[sid].playerId in s.players
    ensures var t := Award(s, sid, now); Seated(t) && Awarded(s, t, sid, now) && Told(s, t, now)
  {
    hide Persist;
  }

  lemma TouchedAward(s: RoomState, t: RoomState, sid: Id, now: int)
    requires Seated(t) && Awarded(s, t, sid, now) && Told(s, t, now)
    ensures Awarded(s, Touch(t, now), sid, now) && Told(s, Touch(t, now), now)
  {
    hide Persist;
  }

  lemma ScheduledAward(s: RoomState, t: RoomState, sid: Id, now: int)
    requires Seated(t) && Awarded(s, t, sid, now) && Told(s, t, now)
    ensures Awarded(s, ScheduleComputerTurns(t), sid, now) && Told(s, ScheduleComputerTurns(t), now)
  {
    hide ComputerTurns;
  }

  // Only the judge can award, only while judging, and only a card on the table.
  lemma PickWinnerLaw(s: RoomState, who: Id, sid: Id, now: int)
    requires Valid(s)
    ensures var o := Step(s, Event(now, PickWinnerCmd(who, sid)));
            (o.error.None? <==> s.phase == Judging && who == s.judgeID && sid in s.submissions)
            && (o.error.None? ==> Awarded(s, o.room, sid, now) && Told(s, o.room, now))
  {
    hide Core, Stage, Persist, Award, Awarded;
    ValidIsGood(s);
    if sid in s.submissions {
      AwardIsAwarded(s, sid, now);
    }
  }

  // A computer judge's turn awards the submission its choice falls on, exactly when
  // the turn is still its own.
  lemma ComputerVerdictLaw(s: RoomState, player: Id, seqNo: nat, pick: Id, now: int)
    requires Valid(s) && CanStep(s, ComputerJudges(player, seqNo, pick))
    ensures var t := After(s, Event(now, ComputerJudges(player, seqNo, pick)));
            var u := s.(outstanding := s.outstanding - multiset{ComputerVerdict(player, seqNo)});
            if seqNo == s.phaseSeq && s.phase == Judging && s.judgeID == player && player in s.players && s.players[player].isComputer
            then Awarded(u, t, pick, now) && Told(s, t, now) else t == u
  {
    hide Core, Scores, Timers, ComputersDue, Persist, Award, Awarded;
    ValidIsGood(s);
    CoreFacts(s);
    var c := ComputerVerdict(player, seqNo);
    TakenCore(s, c);
    if ComputerMayJudge(s, player, seqNo) {
      AwardIsAwarded(Taken(s, c), pick, now);
    }
  }

  // --- deadlines ---

  // A deadline of an earlier sequence number changes nothing. One that is due closes
  // the answers, to judging if there are any and to scoring otherwise, or awards the
  // submission the random choice falls on.
  lemma DeadlineLaw(s: RoomState, seqNo: nat, pick: Id, now: int)
    requires Valid(s) && CanStep(s, DeadlineFires(seqNo, pick))
    ensures var t := After(s, Event(now, DeadlineFires(seqNo, pick)));
            var u := s.(outstanding := s.outstanding - multiset{DeadlineTimer(seqNo)});
            if seqNo != s.phaseSeq then t == u
            else if s.phase == Submitting then
              Entered(u, t, if s.submissions == map[] then Scoring else Judging, now) && Told(u, t, now)
              && t == u.(phase := t.phase, phaseSeq := t.phaseSeq, phaseDeadline := t.phaseDeadline, timer := t.timer,
                         outstanding := t.outstanding, updatedAt := now, stateVersion := t.stateVersion, published := t.published)
            else s.phase == Judging && Awarded(u, t, pick, now) && Told(u, t, now)
  {
    hide Core, RoundShape, Scores, ComputersDue, Persist, Award, Awarded, ComputerTurns;
    ValidIsGood(s);
    CoreFacts(s);
    var c := DeadlineTimer(seqNo);
    TakenCore(s, c);
    if seqNo == s.phaseSeq && s.phase == Judging {
      AwardIsAwarded(Taken(s, c), pick, now);
    } else if seqNo == s.phaseSeq && s.phase == Submitting {
      ClosedAnswers(Taken(s, c), now);
    }
  }

  lemma ClosedAnswers(s: RoomState, now: int)
    requires Seated(s)
    ensures var t := ScheduleComputerTurns(BeginJudging(s, now));
            Entered(s, t, if s.submissions == map[] then Scoring else Judging, now) && Told(s, t, now)
            && t == s.(phase := t.phase, phaseSeq := t.phaseSeq, phaseDeadline := t.phaseDeadline, timer := t.timer,
                       outstanding := t.outstanding, updatedAt := now, stateVersion := t.stateVersion, published := t.published)
  {
    hide ComputerTurns, SortedSubmissions, PersistPlayers;
  }
}
