// What every room on every run obeys, and what single events do.
module RoomLaws {
  import opened Wrappers
  import opened Sequences
  import opened Cards
  import opened RoomTypes
  import opened RoomRules
  import opened RoomInvariant
  import opened RoomPreservation
  import opened RoundPreservation
  import opened RoomRuns
  import opened StepEffects

  // --- who has submitted ---

  ghost function Authors(subs: map<Id, Submission>): set<Id> {
    set k | k in subs :: subs[k].playerId
  }

  lemma {:induction false} OneCardEach(subs: map<Id, Submission>)
    requires forall j, k :: j in subs && k in subs && j != k ==> subs[j].playerId != subs[k].playerId
    ensures |Authors(subs)| == |subs|
    decreases |subs|
  {
    if subs != map[] {
      var k :| k in subs;
      var rest := subs - {k};
      assert subs.Keys == rest.Keys + {k};
      OneCardEach(rest);
      assert Authors(subs) == Authors(rest) + {subs[k].playerId};
    } else {
      assert Authors(subs) == {};
    }
  }

  // Counting submissions against the roster says exactly that every seated
  // non-judge has one. The count is taken in the middle of SubmitAnswer and
  // Leave too, so this asks only for the people and cards to be in order.
  lemma CountingIsCoverage(s: RoomState)
    requires Core(s) && JudgeSeated(s.order, s.judgeIndex, s.judgeID, s.submissions)
    ensures AllAnswerersSubmitted(s) <==> forall id :: id in s.order && id != s.judgeID ==> HasSubmission(s.submissions, id)
    ensures |s.submissions| <= |s.order| - 1
  {
    hide Limits, DeckOk, JudgeFlags, Connections, SevenCards, Authors, HasSubmission;
    OneCardEach(s.submissions);
    DistinctCardinality(s.order);
    AuthorsHaveCards(s.submissions);
    var answerers := Elements(s.order) - {s.judgeID};
    assert Elements(s.order) == answerers + {s.judgeID};
    AuthorsAnswer(s.players, s.order, s.submissions, s.entropy.nextId, s.judgeID);
    SubsetCardinality(Authors(s.submissions), answerers);
    if forall id :: id in s.order && id != s.judgeID ==> HasSubmission(s.submissions, id) {
      assert Authors(s.submissions) == answerers;
    } else {
      var id :| id in s.order && id != s.judgeID && !HasSubmission(s.submissions, id);
      assert id in answerers && id !in Authors(s.submissions);
    }
  }

  lemma AuthorsHaveCards(subs: map<Id, Submission>)
    ensures forall id :: id in Authors(subs) <==> HasSubmission(subs, id)
  {
  }

  lemma AuthorsAnswer(players: map<Id, Player>, order: seq<Id>, subs: map<Id, Submission>, nextId: Id, judgeID: Id)
    requires Roster(players, order, nextId) && Table(players, subs, nextId) && !HasSubmission(subs, judgeID)
    ensures Authors(subs) <= Elements(order) - {judgeID}
  {
  }

  // No round stalls: while answers are open someone seated still owes a card and
  // the clock is running; while the judge decides there is something to judge.
  lemma NoStall(s: RoomState)
    requires Valid(s)
    ensures s.phase == Submitting ==>
              |s.order| >= MIN_PLAYERS_TO_START && s.judgeID in s.players
              && (exists id :: id in s.order && id != s.judgeID && !HasSubmission(s.submissions, id))
    ensures s.phase == Judging ==> s.judgeID in s.players && 1 <= |s.submissions| <= |s.order| - 1
    ensures s.phase == Submitting || s.phase == Judging ==>
              DeadlineTimer(s.phaseSeq) in s.outstanding && s.order[s.judgeIndex] == s.judgeID
              && (forall id :: id in s.players ==> (s.players[id].isJudge <==> id == s.judgeID))
              && (forall k :: k in s.submissions ==>
                    s.submissions[k].playerId in s.players && s.submissions[k].playerId != s.judgeID && !s.submissions[k].isWinner)
  {
    hide Limits, DeckOk, Connections, SevenCards, Scores, ComputersDue;
    CoreFacts(s);
    if s.phase == Submitting || s.phase == Judging {
      CountingIsCoverage(s);
      assert forall k :: k in s.submissions && s.submissions[k].playerId == s.judgeID ==> HasSubmission(s.submissions, s.judgeID);
    }
  }

  // Hand and table make seven for everyone seated, in every phase.
  lemma SevenCardLaw(s: RoomState, id: Id)
    requires Valid(s) && id in s.players
    ensures |s.players[id].hand| + |SubmissionKeysOf(s.submissions, id)| == HAND_SIZE
  {
    hide Limits, DeckOk, Connections, Roster, JudgeFlags, Stage;
    var mine := SubmissionKeysOf(s.submissions, id);
    if HasSubmission(s.submissions, id) {
      var k :| k in s.submissions && s.submissions[k].playerId == id;
      assert mine == {k};
    } else {
      assert mine == {};
    }
  }

  // A deadline that fires on time closes answers, or awards a card that is
  // really on the table to the player who played it.
  lemma DeadlineMovesOn(s: RoomState, pick: Id, now: int)
    requires Valid(s) && CanStep(s, DeadlineFires(s.phaseSeq, pick))
    ensures s.phase == Submitting || s.phase == Judging
    ensures var t := After(s, Event(now, DeadlineFires(s.phaseSeq, pick)));
            t.phaseSeq == s.phaseSeq + 1
            && (s.phase == Submitting ==> t.phase == (if s.submissions == map[] then Scoring else Judging)
                                          && t.submissions == s.submissions && t.players == s.players)
            && (s.phase == Judging ==> pick in s.submissions && pick in t.submissions && t.submissions[pick].isWinner)
  {
    hide Core, RoundShape, Scores, ComputersDue, Persist, BeginJudging, Award, ScheduleComputerTurns;
    CoreFacts(s);
    var u := Taken(s, DeadlineTimer(s.phaseSeq));
    if s.phase == Submitting {
      AnswersClose(u, now);
    } else {
      CardIsAwarded(u, pick, now);
    }
  }

  lemma AnswersClose(s: RoomState, now: int)
    requires Seated(s)
    ensures var t := ScheduleComputerTurns(BeginJudging(s, now));
            t.phaseSeq == s.phaseSeq + 1 && t.phase == (if s.submissions == map[] then Scoring else Judging)
            && t.submissions == s.submissions && t.players == s.players
  {
    hide Persist, ComputerTurns;
    assert |s.submissions| == 0 <==> s.submissions == map[];
  }

  lemma CardIsAwarded(s: RoomState, pick: Id, now: int)
    requires Seated(s) && pick in s.submissions
    ensures var t := ScheduleComputerTurns(Award(s, pick, now));
            t.phaseSeq == s.phaseSeq + 1 && pick in t.submissions && t.submissions[pick].isWinner
  {
    hide Persist, ComputerTurns;
  }

  // --- refusals ---

  // A command that reports an error has changed nothing.
  lemma RefusalChangesNothing(s: RoomState, e: Event)
    requires Valid(s) && CanStep(s, e.command) && Step(s, e).error.Some?
    ensures Step(s, e).room == s
  {
    hide Good, Persist, BeginRound, RefillAll, ScheduleComputerTurns, ReturnCards, SetPhase, Touch, Award, ChangeTier, AddPlayer;
    hide RemovePlayer, ApplyRosterLoss, SeatComputers;
    ValidFacts(s);
    match e.command {
      case StartComputerGameCmd(caller) => StartComputerGameKeeps(s, caller, e.now);
      case SubmitAnswerCmd(player, answerId) => RefusedCard(s, player, answerId, e.now);
      case _ =>
    }
  }
}
