// What only the host may do - start and end games, begin rounds, skip prompts, change
// settings - and exactly what each changes, in every valid room.
module RoundLaws {
  import opened Wrappers
  import opened Sequences
  import opened Cards
  import opened RoomTypes
  import opened RoomRules
  import opened RoomInvariant
  import opened RoomPreservation
  import opened RoundPreservation
  import opened RoomRuns
  import opened RoomLaws
  import opened PlayLaws

  // The prompt is the top of the pile and off the pile; an empty pile is first
  // replaced by the whole deck.
  ghost predicate DrewPrompt(s: RoomState, t: RoomState) {
    t.prompt.Some?
    && (if s.promptPile != []
        then s.promptPile == t.promptPile + [t.prompt.value] && t.entropy.promptShuffles == s.entropy.promptShuffles
        else multiset(t.promptPile + [t.prompt.value]) == multiset(s.deck.prompts)
             && t.entropy.promptShuffles == s.entropy.promptShuffles + 1)
  }

  // Every hand is what it was and the cards it took to make seven of them.
  ghost predicate Refilled(before: seq<AnswerCard>, after: seq<AnswerCard>) {
    before <= after && |after| == HAND_SIZE
  }

  // A round begins: the player at this place judges, a new prompt is out, everyone
  // has seven cards, the answers are open and their time runs. Nothing else of the
  // room is touched.
  ghost predicate Begun(s: RoomState, t: RoomState, cursor: int, now: int) {
    0 <= cursor < |s.order|
    && t == s.(roundNumber := s.roundNumber + 1, judgeIndex := cursor, judgeID := s.order[cursor], submissions := map[],
               prompt := t.prompt, promptPile := t.promptPile, players := t.players, answerPile := t.answerPile, entropy := t.entropy,
               phase := t.phase, phaseSeq := t.phaseSeq, phaseDeadline := t.phaseDeadline, timer := t.timer, outstanding := t.outstanding,
               updatedAt := t.updatedAt, stateVersion := t.stateVersion, published := t.published)
    && DrewPrompt(s, t) && Entered(s, t, Submitting, now) && Told(s, t, now)
    && t.entropy.nextId == s.entropy.nextId && t.players.Keys == s.players.Keys
    && forall id :: id in s.players ==>
         t.players[id] == s.players[id].(isJudge := id == s.order[cursor], hand := t.players[id].hand)
         && Refilled(s.players[id].hand, t.players[id].hand)
  }

  lemma PromptIsTop(s: RoomState)
    requires s.deck.prompts != []
    ensures DrewPrompt(s, DrawPrompt(s))
    ensures var t := DrawPrompt(s);
            t == s.(prompt := t.prompt, promptPile := t.promptPile, entropy := s.entropy.(promptShuffles := t.entropy.promptShuffles))
  {
    ShoeNotEmpty(s.deck, s.entropy, s.entropy.promptShuffles);
    ShuffleIsPermutation(s.deck.prompts, PromptRoll(s.entropy, s.entropy.promptShuffles));
    var full := if s.promptPile == [] then PromptShoe(s.deck.prompts, s.entropy, s.entropy.promptShuffles) else s.promptPile;
    assert full == full[..|full| - 1] + [full[|full| - 1]];
  }

  lemma {:induction false} RefillAppends(s: RoomState, ids: seq<Id>)
    requires s.deck.answers != [] && forall id :: id in ids ==> id in s.players
    ensures RefillAll(s, ids).players.Keys == s.players.Keys
    ensures forall id :: id in s.players ==> s.players[id].hand <= RefillAll(s, ids).players[id].hand
    decreases |ids|
  {
    hide DrawAnswers;
    if ids != [] {
      var t := RefillOne(s, ids[0]);
      RefillAppends(t, ids[1..]);
      assert forall id :: id in s.players ==> s.players[id].hand <= t.players[id].hand;
    }
  }

  lemma NamesJudge(s: RoomState)
    requires Core(s) && s.order != [] && 0 <= s.judgeIndex < |s.order|
    ensures s.deck.Playable()
    ensures var t := JudgeNamed(s);
            DrewPrompt(s, t) && t.entropy == s.entropy.(promptShuffles := t.entropy.promptShuffles)
            && t == s.(roundNumber := s.roundNumber + 1, submissions := map[], prompt := t.prompt, promptPile := t.promptPile,
                       entropy := t.entropy, judgeID := s.order[s.judgeIndex], players := t.players)
            && t.players.Keys == s.players.Keys
            && forall id :: id in s.players ==> t.players[id] == s.players[id].(isJudge := id == s.order[s.judgeIndex])
  {
    hide Limits, Roster, Connections, Table, JudgeFlags, SevenCards, DrewPrompt, DrawPrompt;
    CoreFacts(s);
    SmallMod(s.judgeIndex, |s.order|);
    var u := s.(roundNumber := s.roundNumber + 1, submissions := map[]);
    PromptIsTop(u);
    DrewFrom(s, u, DrawPrompt(u));
  }

  lemma DrewFrom(s: RoomState, u: RoomState, t: RoomState)
    requires u.promptPile == s.promptPile && u.deck == s.deck && u.entropy.promptShuffles == s.entropy.promptShuffles && DrewPrompt(u, t)
    ensures DrewPrompt(s, t)
    ensures forall v: RoomState ::
              v.prompt == t.prompt && v.promptPile == t.promptPile && v.entropy.promptShuffles == t.entropy.promptShuffles ==> DrewPrompt(s, v)
  {
  }

  lemma HandsAfter(s: RoomState)
    requires Core(s) && s.order != [] && 0 <= s.judgeIndex < |s.order|
    ensures s.deck.Playable() && Seated(JudgeNamed(s))
    ensures var u := RefillAll(JudgeNamed(s), s.order);
            u.players.Keys == s.players.Keys && Seated(u)
            && forall id :: id in s.players ==>
                 u.players[id] == s.players[id].(isJudge := id == s.order[s.judgeIndex], hand := u.players[id].hand)
                 && Refilled(s.players[id].hand, u.players[id].hand)
  {
    hide Limits, Roster, Connections, Table, JudgeFlags, JudgeNamed, RefillAll, DeckOk;
    CoreFacts(s);
    NamesJudge(s);
    SevenFit(s);
    var t := JudgeNamed(s);
    RefillAllFrame(t, s.order);
    RefillFills(t, s.order);
    RefillAppends(t, s.order);
  }

  lemma RoundBegins(s: RoomState, cursor: int, now: int)
    requires Core(s) && s.order != [] && 0 <= cursor < |s.order|
    ensures s.deck.Playable() && Seated(s)
    ensures var t := ScheduleComputerTurns(BeginRound(s.(judgeIndex := cursor), now)); Begun(s, t, cursor, now)
  {
    hide Core, JudgeNamed, RefillAll, DrewPrompt, Refilled, Persist, BeginRound, ScheduleComputerTurns;
    CoreFacts(s);
    CoreIgnoresCursor(s, cursor);
    var c := s.(judgeIndex := cursor);
    NamesJudge(c);
    HandsAfter(c);
    RefillAllFrame(JudgeNamed(c), c.order);
    var u := RefillAll(JudgeNamed(c), c.order);
    BeginsFrom(c, now);
    DrewFrom(s, c, JudgeNamed(c));
  }

  // What is left to do once the judge is named and the hands are full.
  lemma BeginsFrom(c: RoomState, now: int)
    requires c.deck.Playable() && c.order != [] && 0 <= c.judgeIndex < |c.order| && Seated(c) && c.submitSecs > 0
    requires Seated(JudgeNamed(c)) && JudgeNamed(c).order == c.order && JudgeNamed(c).deck == c.deck && JudgeNamed(c).submitSecs == c.submitSecs
    requires JudgeNamed(c).phaseSeq == c.phaseSeq && JudgeNamed(c).stateVersion == c.stateVersion
    ensures var u := RefillAll(JudgeNamed(c), c.order); var t := ScheduleComputerTurns(BeginRound(c, now));
            t == u.(phase := t.phase, phaseSeq := t.phaseSeq, phaseDeadline := t.phaseDeadline, timer := t.timer, outstanding := t.outstanding,
                    updatedAt := now, stateVersion := t.stateVersion, published := t.published)
            && Entered(c, t, Submitting, now) && Told(c, t, now)
  {
    hide RefillAll, MarkJudge, DrawPrompt, Persist, ComputerTurns;
    RefillAllFrame(JudgeNamed(c), c.order);
  }

  // Only the host starts a game, from the lobby, with three or more players; the
  // first of them judges.
  lemma StartGameLaw(s: RoomState, caller: Id, now: int)
    requires Valid(s)
    ensures var o := Step(s, Event(now, StartGameCmd(caller)));
            (o.error.None? <==> caller == s.hostID && s.phase == Lobby && |s.order| >= MIN_PLAYERS_TO_START)
            && (o.error.None? ==> Begun(s, o.room, 0, now))
  {
    hide Core, Stage, Persist, Begun, BeginRound, ScheduleComputerTurns;
    ValidIsGood(s);
    ValidFacts(s);
    if s.order != [] {
      RoundBegins(s, 0, now);
    }
  }

  // Only the host goes on to the next round, and only from scoring; the next in the
  // order judges.
  lemma NextRoundLaw(s: RoomState, caller: Id, now: int)
    requires Valid(s)
    ensures var o := Step(s, Event(now, NextRoundCmd(caller)));
            (o.error.None? <==> caller == s.hostID && s.phase == Scoring)
            && (o.error.None? ==> Begun(s, o.room, if s.judgeIndex + 1 == |s.order| then 0 else s.judgeIndex + 1, now))
  {
    hide Core, Scores, Timers, ComputersDue, Persist, Begun, BeginRound, ScheduleComputerTurns;
    ValidIsGood(s);
    ValidFacts(s);
    if s.phase == Scoring {
      ModInRange(s.judgeIndex + 1, |s.order|);
      WrapsAround(s.judgeIndex, |s.order|);
      RoundBegins(s, (s.judgeIndex + 1) % |s.order|, now);
    }
  }

  lemma WrapsAround(i: int, n: int)
    requires 0 <= i < n
    ensures (i + 1) % n == if i + 1 == n then 0 else i + 1
  {
    if i + 1 < n {
      SmallMod(i + 1, n);
    }
  }

  // --- a prompt is skipped ---

  // The card of this player is back in the hand.
  ghost predicate TakenBack(s: RoomState, id: Id, hand: seq<AnswerCard>)
    requires id in s.players
  {
    if HasSubmission(s.submissions, id)
    then exists k :: k in s.submissions && s.submissions[k].playerId == id && hand == s.players[id].hand + [s.submissions[k].answer]
    else hand == s.players[id].hand
  }

  lemma CardsReturn(s: RoomState)
    requires Seated(s)
    ensures var t := ReturnCards(s);
            t == s.(players := t.players, submissions := map[]) && t.players.Keys == s.players.Keys && Seated(t)
            && forall id :: id in s.players ==>
                 t.players[id] == s.players[id].(hand := t.players[id].hand) && TakenBack(s, id, t.players[id].hand)
  {
    var t := ReturnCards(s);
    forall id | id in s.players
      ensures TakenBack(s, id, t.players[id].hand)
    {
      if HasSubmission(s.submissions, id) {
        var k :| k in s.submissions && s.submissions[k].playerId == id && s.submissions[k].answer == CardPlayed(s.submissions, id);
      }
    }
  }

  // Only the host skips a prompt, while answers come in. The cards on the table go
  // back to the hands they came from, another prompt is out, and the time for answers
  // runs anew. Judge, round and everything else stay.
  lemma SkipPromptLaw(s: RoomState, caller: Id, now: int)
    requires Valid(s)
    ensures var o := Step(s, Event(now, SkipPromptCmd(caller))); var t := o.room;
            (o.error.None? <==> caller == s.hostID && s.phase == Submitting)
            && (o.error.None? ==>
                  t == s.(players := t.players, submissions := map[], prompt := t.prompt, promptPile := t.promptPile,
                          entropy := s.entropy.(promptShuffles := t.entropy.promptShuffles),
                          phaseSeq := t.phaseSeq, phaseDeadline := t.phaseDeadline, timer := t.timer, outstanding := t.outstanding,
                          updatedAt := now, stateVersion := t.stateVersion, published := t.published)
                  && DrewPrompt(s, t) && Entered(s, t, Submitting, now) && Told(s, t, now) && t.players.Keys == s.players.Keys
                  && forall id :: id in s.players ==>
                       t.players[id] == s.players[id].(hand := t.players[id].hand) && TakenBack(s, id, t.players[id].hand))
  {
    hide Core, Stage, Persist, DrewPrompt, TakenBack, ReturnCards, DrawPrompt, ScheduleComputerTurns, SetPhase, Touch;
    ValidIsGood(s);
    ValidFacts(s);
    SomeTime(s);
    if Step(s, Event(now, SkipPromptCmd(caller))).error.None? {
      CardsReturn(s);
      var u := ReturnCards(s);
      PromptIsTop(u);
      DrewFrom(s, u, DrawPrompt(u));
      AnswersReopen(DrawPrompt(u), now);
    }
  }

  lemma AnswersReopen(s: RoomState, now: int)
    requires Seated(s) && s.submitSecs > 0
    ensures Seated(ScheduleComputerTurns(SetPhase(s, Submitting, s.submitSecs, now)))
    ensures var t := Touch(ScheduleComputerTurns(SetPhase(s, Submitting, s.submitSecs, now)), now);
            Entered(s, t, Submitting, now) && Told(s, t, now)
            && t == s.(phase := Submitting, phaseSeq := t.phaseSeq, phaseDeadline := t.phaseDeadline, timer := t.timer,
                       outstanding := t.outstanding, updatedAt := now, stateVersion := t.stateVersion, published := t.published)
  {
    hide Persist, ComputerTurns;
  }

  lemma SomeTime(s: RoomState)
    requires Good(s)
    ensures s.submitSecs > 0
  {
    CoreFacts(s);
  }

  // --- ending and starting over ---

  // Only the host ends a game, in any phase of it; the scores stay.
  lemma EndGameLaw(s: RoomState, caller: Id, now: int)
    requires Valid(s)
    ensures var o := Step(s, Event(now, EndGameCmd(caller))); var t := o.room;
            (o.error.None? <==> caller == s.hostID && s.phase != Lobby)
            && (o.error.None? ==>
                  Entered(s, t, Finished, now) && Told(s, t, now)
                  && t == s.(phase := Finished, phaseSeq := t.phaseSeq, phaseDeadline := None, timer := None,
                             updatedAt := now, stateVersion := t.stateVersion, published := t.published))
  {
    hide Good, Persist;
    ValidFacts(s);
  }

  // Only the host starts over, from a finished game: back in the lobby, with the
  // same people in their seats, no score, no round, and seven cards each.
  lemma PlayAgainLaw(s: RoomState, caller: Id, visit: seq<Id>, now: int)
    requires Valid(s) && CanStep(s, PlayAgainCmd(caller, visit))
    ensures var o := Step(s, Event(now, PlayAgainCmd(caller, visit))); var t := o.room;
            (o.error.None? <==> caller == s.hostID && s.phase == Finished)
            && (o.error.None? ==>
                  t == s.(roundNumber := 0, judgeIndex := 0, judgeID := 0, prompt := None, submissions := map[],
                          players := t.players, answerPile := t.answerPile, entropy := t.entropy,
                          phase := Lobby, phaseSeq := t.phaseSeq, phaseDeadline := None, timer := None,
                          updatedAt := now, stateVersion := t.stateVersion, published := t.published)
                  && Entered(s, t, Lobby, now) && Told(s, t, now)
                  && t.entropy == s.entropy.(answerShuffles := t.entropy.answerShuffles) && t.players.Keys == s.players.Keys
                  && forall id :: id in s.players ==>
                       t.players[id] == s.players[id].(score := 0, isJudge := false, hand := t.players[id].hand)
                       && Refilled(s.players[id].hand, t.players[id].hand))
  {
    hide Core, Stage, Persist, RefillAll, Refilled;
    ValidIsGood(s);
    ValidFacts(s);
    if Step(s, Event(now, PlayAgainCmd(caller, visit))).error.None? {
      RefillAllFrame(Wiped(s), visit);
      StartsOver(s, visit);
    }
  }

  lemma StartsOver(s: RoomState, visit: seq<Id>)
    requires Good(s) && Distinct(visit) && forall id :: id in visit <==> id in s.players
    ensures s.deck.answers != []
    ensures var t := RefillAll(Wiped(s), visit);
            t.players.Keys == s.players.Keys && (forall id :: id in s.order ==> id in t.players)
            && forall id :: id in s.players ==>
                 t.players[id] == s.players[id].(score := 0, isJudge := false, hand := t.players[id].hand)
                 && Refilled(s.players[id].hand, t.players[id].hand)
  {
    hide Limits, Roster, Connections, Table, JudgeFlags, DeckOk, Stage, RefillAll;
    CoreFacts(s);
    SevenFit(s);
    RefillAllFrame(Wiped(s), visit);
    RefillFills(Wiped(s), visit);
    RefillAppends(Wiped(s), visit);
  }

  // --- playing with computers ---

  // Computers are seated, one after the other, until there are three players: each
  // with a fresh id, a hand of seven, no score and a name of its own.
  ghost predicate SeatedMore(s: RoomState, t: RoomState) {
    s.order <= t.order && s.players.Keys <= t.players.Keys && (forall id :: id in s.players ==> t.players[id] == s.players[id])
    && (forall id :: id in t.players && id !in s.players ==>
          t.players[id] == Player(id, t.players[id].name, t.players[id].token, 0, true, true, false, t.players[id].hand)
          && |t.players[id].hand| == HAND_SIZE && t.players[id].token != 0 && s.entropy.nextId <= id < t.entropy.nextId
          && (t.players[id].name in COMPUTER_NAMES || t.players[id].name == "CPU Guest"))
    && t == s.(players := t.players, order := t.order, answerPile := t.answerPile, entropy := t.entropy,
               updatedAt := t.updatedAt, stateVersion := t.stateVersion, published := t.published)
    && t.entropy == s.entropy.(nextId := t.entropy.nextId, answerShuffles := t.entropy.answerShuffles)
    && t.stateVersion >= s.stateVersion && t.entropy.nextId >= s.entropy.nextId && NamedApart(s, t)
  }

  // A computer shares its name with nobody, unless the names have run out.
  ghost predicate NamedApart(s: RoomState, t: RoomState) {
    forall x, y :: x in t.players && x !in s.players && y in t.players && x != y && t.players[x].name == t.players[y].name ==>
      t.players[x].name == "CPU Guest"
  }

  lemma OneMoreComputer(s: RoomState, now: int)
    requires Good(s) && s.phase == Lobby && s.hostID != 0
    ensures s.deck.Playable() && Seated(s)
    ensures var t := AddPlayer(s, NextComputerName(NamesInUse(s)), true, now); SeatedMore(s, t) && |t.order| == |s.order| + 1
  {
    hide Limits, Roster, Connections, Table, JudgeFlags, SevenCards, DeckOk, Stage, DrawAnswers, Persist;
    CoreFacts(s);
    DealtHand(s.answerPile, s.deck.answers, s.entropy, s.entropy.answerShuffles, HAND_SIZE);
    ComputerNamed(COMPUTER_NAMES, NamesInUse(s));
    ShortNames();
  }

  lemma {:induction false} ComputerNamed(names: seq<string>, used: set<string>)
    ensures FirstUnused(names, used) in names || FirstUnused(names, used) == "CPU Guest"
    ensures FirstUnused(names, used) in used ==> FirstUnused(names, used) == "CPU Guest"
    decreases |names|
  {
    if names != [] {
      ComputerNamed(names[1..], used);
      assert names == [names[0]] + names[1..];
    }
  }

  lemma ShortNames()
    ensures forall i :: 0 <= i < |COMPUTER_NAMES| ==> 0 < |COMPUTER_NAMES[i]| <= MAX_NAME_LEN
    ensures 0 < |"CPU Guest"| <= MAX_NAME_LEN
  {
  }

  lemma MoreTwice(a: RoomState, b: RoomState, c: RoomState)
    requires SeatedMore(a, b) && SeatedMore(b, c)
    ensures SeatedMore(a, c)
  {
    hide Persist;
  }

  lemma NoMore(s: RoomState)
    ensures SeatedMore(s, s)
  {
  }

  lemma {:induction false} ComputersSit(s: RoomState, now: int)
    requires Good(s) && s.phase == Lobby && s.hostID != 0
    ensures s.deck.Playable() && Seated(s)
    ensures var r := SeatComputers(s, now);
            r.error.None? && Good(r.room) && SeatedMore(s, r.room)
            && |r.room.order| == if |s.order| < MIN_PLAYERS_TO_START then MIN_PLAYERS_TO_START else |s.order|
    decreases MIN_PLAYERS_TO_START - |s.order|
  {
    hide Good, SeatedMore, Persist, NamesInUse, AddPlayer;
    GoodRoom(s);
    NoMore(s);
    if |s.order| < MIN_PLAYERS_TO_START {
      var name := NextComputerName(NamesInUse(s));
      var t := AddPlayer(s, name, true, now);
      OneMoreComputer(s, now);
      AddPlayerKeeps(s, name, true, now);
      ValidIsGood(t);
      StillLobby(s, t);
      ComputersSit(t, now);
      MoreTwice(s, t, SeatComputers(t, now).room);
    }
  }

  lemma GoodRoom(s: RoomState)
    requires Good(s)
    ensures s.deck.Playable() && Seated(s) && MIN_PLAYERS_TO_START <= s.maxPlayers
  {
    CoreFacts(s);
  }

  lemma StillLobby(s: RoomState, t: RoomState)
    requires SeatedMore(s, t)
    ensures t.phase == s.phase && t.hostID == s.hostID
  {
  }

  lemma {:induction false} ComputerFirst(players: map<Id, Player>, order: seq<Id>, from: nat)
    requires from <= |order| && forall id :: id in order ==> id in players
    requires forall j :: 0 <= j < from ==> !players[order[j]].isComputer
    ensures var i := FirstComputerIndex(players, order, from);
            if exists j :: 0 <= j < |order| && players[order[j]].isComputer
            then i < |order| && players[order[i]].isComputer && forall j :: 0 <= j < i ==> !players[order[j]].isComputer
            else i == 0
    decreases |order| - from
  {
    if from < |order| && !players[order[from]].isComputer {
      ComputerFirst(players, order, from + 1);
    }
  }

  // A game with computers is started by the host, from the lobby, and never fails
  // for want of room: computers fill the seats up to three, and the first computer
  // in the order judges, or the first player if there is none.
  lemma StartComputerGameLaw(s: RoomState, caller: Id, now: int)
    requires Valid(s) && caller != 0
    ensures var o := Step(s, Event(now, StartComputerGameCmd(caller)));
            (o.error.None? <==> caller == s.hostID && s.phase == Lobby)
            && (o.error.None? ==>
                  exists m: RoomState, cursor: int ::
                    SeatedMore(s, m) && FirstToJudge(m, cursor) && Begun(m, o.room, cursor, now)
                    && |m.order| == if |s.order| < MIN_PLAYERS_TO_START then MIN_PLAYERS_TO_START else |s.order|)
  {
    hide Good, Persist, Begun, BeginRound, ScheduleComputerTurns, SeatComputers, SeatedMore, FirstToJudge;
    ValidIsGood(s);
    ValidFacts(s);
    var o := Step(s, Event(now, StartComputerGameCmd(caller)));
    if caller == s.hostID && s.phase == Lobby {
      ComputersSit(s, now);
      SeatComputersFrame(s, now);
      var m := SeatComputers(s, now).room;
      GoodCore(m);
      GoodRoom(m);
      var cursor := FirstComputerIndex(m.players, m.order, 0);
      ComputerFirst(m.players, m.order, 0);
      assert FirstToJudge(m, cursor) by { TheFirst(m); }
      RoundBegins(m, cursor, now);
    }
  }

  ghost predicate FirstToJudge(m: RoomState, cursor: int) {
    Seated(m) && 0 <= cursor < |m.order|
    && if exists j :: 0 <= j < |m.order| && m.players[m.order[j]].isComputer
       then m.players[m.order[cursor]].isComputer && forall j :: 0 <= j < cursor ==> !m.players[m.order[j]].isComputer
       else cursor == 0
  }

  lemma TheFirst(m: RoomState)
    requires Seated(m) && m.order != []
    ensures FirstToJudge(m, FirstComputerIndex(m.players, m.order, 0))
  {
    ComputerFirst(m.players, m.order, 0);
  }

  // --- settings ---

  // A number asked for is taken if it is in range, otherwise the nearest one that is;
  // zero keeps what was set.
  ghost predicate SetWithin(asked: int, lo: int, hi: int, before: int, after: int) {
    if asked == 0 then after == before
    else lo <= after <= hi && (lo <= asked <= hi ==> after == asked) && (asked < lo ==> after == lo) && (asked > hi ==> after == hi)
  }

  ghost predicate TunedTo(s: RoomState, t: RoomState, v: Settings) {
    SetWithin(v.scoreLimit, 1, 20, s.scoreLimit, t.scoreLimit)
    && SetWithin(v.roundSeconds, 15, 300, s.submitSecs, t.submitSecs)
    && SetWithin(v.maxPlayers, if |s.order| < 3 then 3 else |s.order|, 20, s.maxPlayers, t.maxPlayers)
    && t.contentTier == (if v.contentTier.Some? then v.contentTier.value else s.contentTier)
  }

  // Only the host changes settings, in the lobby. On another tier everyone's hand and
  // both piles come from that tier's deck, freshly shuffled; otherwise no card moves.
  lemma UpdateSettingsLaw(s: RoomState, caller: Id, settings: Option<Settings>, now: int)
    requires Valid(s)
    ensures var o := Step(s, Event(now, UpdateSettingsCmd(caller, settings))); var t := o.room;
            (o.error.None? <==> caller == s.hostID && s.phase == Lobby && settings.Some?)
            && (o.error.None? ==> TunedTo(s, t, settings.value) && Told(s, t, now) && Retiered(s, t))
  {
    hide Core, Stage, Persist, ChangeTier, ClampInt;
    ValidIsGood(s);
    ValidFacts(s);
    if Step(s, Event(now, UpdateSettingsCmd(caller, settings))).error.None? {
      InRange(s);
      Tuning(s, settings.value);
      var t := Tuned(s, settings.value);
      if settings.value.contentTier.Some? && settings.value.contentTier.value != s.contentTier {
        NewTier(t, settings.value.contentTier.value);
      } else {
        SamePlayers(s, t);
      }
    }
  }

  ghost predicate Retiered(s: RoomState, t: RoomState) {
    t == s.(scoreLimit := t.scoreLimit, submitSecs := t.submitSecs, maxPlayers := t.maxPlayers, contentTier := t.contentTier,
            deck := t.deck, players := t.players, answerPile := t.answerPile, promptPile := t.promptPile, entropy := t.entropy,
            updatedAt := t.updatedAt, stateVersion := t.stateVersion, published := t.published)
    && t.players.Keys == s.players.Keys
    && (forall id :: id in s.players ==> t.players[id] == s.players[id].(hand := t.players[id].hand))
    && if t.contentTier == s.contentTier
       then t.deck == s.deck && t.players == s.players && t.answerPile == s.answerPile && t.promptPile == s.promptPile && t.entropy == s.entropy
       else t.deck == s.fullDeck.For(t.contentTier) && multiset(t.promptPile) == multiset(t.deck.prompts)
            && t.entropy == s.entropy.(answerShuffles := t.entropy.answerShuffles, promptShuffles := s.entropy.promptShuffles + 1)
            && forall id :: id in s.order ==> id in t.players && |t.players[id].hand| == HAND_SIZE
  }

  lemma SamePlayers(s: RoomState, t: RoomState)
    requires t.players == s.players
    ensures forall id :: id in s.players ==> t.players[id] == s.players[id].(hand := t.players[id].hand)
  {
  }

  lemma InRange(s: RoomState)
    requires Good(s)
    ensures 3 <= s.maxPlayers <= 20 && |s.order| <= s.maxPlayers && s.fullDeck.For(Party).Playable() && s.fullDeck.For(Family).Playable()
    ensures s.deck == s.fullDeck.For(s.contentTier)
  {
  }

  lemma Tuning(s: RoomState, v: Settings)
    requires |s.order| <= 20
    ensures var t := Tuned(s, v);
            SetWithin(v.scoreLimit, 1, 20, s.scoreLimit, t.scoreLimit) && SetWithin(v.roundSeconds, 15, 300, s.submitSecs, t.submitSecs)
            && SetWithin(v.maxPlayers, if |s.order| < 3 then 3 else |s.order|, 20, s.maxPlayers, t.maxPlayers)
  {
  }

  lemma NewTier(s: RoomState, tier: Tier)
    requires Seated(s) && s.fullDeck.For(tier).Playable() && Distinct(s.order)
    ensures var t := ChangeTier(s, tier);
            t == s.(contentTier := tier, deck := s.fullDeck.For(tier), players := t.players, answerPile := t.answerPile,
                    promptPile := t.promptPile, entropy := t.entropy)
            && t.players.Keys == s.players.Keys && multiset(t.promptPile) == multiset(t.deck.prompts) && Seated(t)
            && t.entropy == s.entropy.(answerShuffles := t.entropy.answerShuffles, promptShuffles := s.entropy.promptShuffles + 1)
            && (forall id :: id in s.players ==> t.players[id] == s.players[id].(hand := t.players[id].hand))
            && forall id :: id in s.order ==> |t.players[id].hand| == HAND_SIZE
  {
    hide RedealAll, PromptShoe, AnswerShoe;
    var a := FreshPiles(s.(contentTier := tier, deck := s.fullDeck.For(tier)));
    RedealAllFrame(a, a.order);
    RedealFills(a, a.order);
    PromptShoeIsDeck(a.deck.prompts, s.entropy);
  }

  lemma PromptShoeIsDeck(prompts: seq<PromptCard>, e: Entropy)
    ensures multiset(PromptShoe(prompts, e, e.promptShuffles)) == multiset(prompts)
  {
    ShuffleIsPermutation(prompts, PromptRoll(e, e.promptShuffles));
  }

  // A new room is an empty lobby with the full party deck on its piles.
  lemma NewRoomLaw(code: string, deck: Deck, e: Entropy, now: int)
    ensures var s := NewRoom(code, deck, e, now);
            s.code == code && s.phase == Lobby && s.phaseSeq == 0 && s.phaseDeadline.None? && s.roundNumber == 0 && s.prompt.None?
            && s.players == map[] && s.order == [] && s.submissions == map[] && s.clients == map[] && s.hostID == 0 && s.judgeID == 0
            && s.scoreLimit == 5 && s.submitSecs == 90 && s.maxPlayers == 12 && s.contentTier == Party && s.stateVersion == 1
            && s.createdAt == now && s.updatedAt == now && s.outstanding == multiset{} && s.timer.None?
            && s.fullDeck == deck && s.deck == deck.For(Party)
            && multiset(s.promptPile) == multiset(s.deck.prompts) && multiset(s.answerPile) == multiset(s.deck.answers)
  {
    hide PromptShoe, AnswerShoe;
    PromptShoeIsDeck(deck.For(Party).prompts, e);
    AnswerShoeIsDeck(deck.For(Party).answers, e);
  }

  lemma AnswerShoeIsDeck(answers: seq<AnswerCard>, e: Entropy)
    ensures multiset(AnswerShoe(answers, e, e.answerShuffles)) == multiset(answers)
  {
    ShuffleIsPermutation(answers, AnswerRoll(e, e.answerShuffles));
  }
}
