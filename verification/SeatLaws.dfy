// Coming and going: who is let in, who becomes host, what a departure does to the
// round - stated of the room before and after, in every valid room.
module SeatLaws {
  import opened Wrappers
  import opened Sequences
  import opened Cards
  import opened RoomTypes
  import opened RoomRules
  import opened RoomInvariant
  import opened RoomPreservation
  import opened RoundPreservation
  import opened RoomRuns
  import opened RoomLaws
  import opened PlayLaws
  import opened RoundLaws

  // --- the host ---

  predicate Fit(p: Player, online: bool) {
    !p.isComputer && (online ==> p.connected)
  }

  // The first person in the order, or the first who is connected; 0 if there is none.
  ghost predicate FirstPerson(players: map<Id, Player>, order: seq<Id>, online: bool, id: Id)
    requires forall x :: x in order ==> x in players
  {
    if exists i :: 0 <= i < |order| && Fit(players[order[i]], online)
    then exists i :: 0 <= i < |order| && id == order[i] && Fit(players[id], online) && forall j :: 0 <= j < i ==> !Fit(players[order[j]], online)
    else id == 0
  }

  lemma {:induction false} FirstPersonFound(players: map<Id, Player>, order: seq<Id>)
    requires forall x :: x in order ==> x in players
    ensures FirstPerson(players, order, true, FirstConnectedHuman(players, order))
    ensures FirstPerson(players, order, false, FirstHuman(players, order))
    decreases |order|
  {
    if order != [] {
      FirstPersonFound(players, order[1..]);
      if Fit(players[order[0]], true) {
        FirstItself(players, order, true);
      } else {
        OneFurther(players, order, true, FirstConnectedHuman(players, order[1..]));
      }
      if Fit(players[order[0]], false) {
        FirstItself(players, order, false);
      } else {
        OneFurther(players, order, false, FirstHuman(players, order[1..]));
      }
    }
  }

  lemma FirstItself(players: map<Id, Player>, order: seq<Id>, online: bool)
    requires order != [] && (forall x :: x in order ==> x in players) && Fit(players[order[0]], online)
    ensures FirstPerson(players, order, online, order[0])
  {
    var i := 0;
    assert order[i] == order[0];
  }

  lemma OneFurther(players: map<Id, Player>, order: seq<Id>, online: bool, id: Id)
    requires order != [] && (forall x :: x in order ==> x in players) && !Fit(players[order[0]], online)
    requires FirstPerson(players, order[1..], online, id)
    ensures FirstPerson(players, order, online, id)
  {
    var rest := order[1..];
    assert forall i :: 0 <= i < |rest| ==> rest[i] == order[i + 1];
    assert forall i :: 0 < i < |order| ==> order[i] == rest[i - 1];
    if exists i :: 0 <= i < |rest| && Fit(players[rest[i]], online) {
      var i :| 0 <= i < |rest| && id == rest[i] && Fit(players[id], online) && forall j :: 0 <= j < i ==> !Fit(players[rest[j]], online);
      assert order[i + 1] == id;
    }
  }

  // --- joining ---

  predicate CleanName(given: string, name: string) {
    if given == "" then name == "Guest"
    else if |given| <= 40 then name == given
    else |name| == 40 && name <= given
  }

  // A name without control characters and a free seat are all it takes, in any phase.
  // The newcomer sits last, with a fresh id, a token, seven cards and no score, and is
  // host if there is none. Nobody else is touched.
  lemma JoinLaw(s: RoomState, name: string, now: int)
    requires Valid(s)
    ensures var o := Step(s, Event(now, JoinCmd(name))); var t, id := o.room, s.entropy.nextId;
            (o.error == if exists i :: 0 <= i < |name| && IsControl(name[i]) then Some(InvalidName)
                        else if |s.order| >= s.maxPlayers then Some(RoomFull) else None)
            && (o.error.None? ==>
                  id !in s.players && id in t.players && Told(s, t, now)
                  && t == s.(players := s.players[id := t.players[id]], order := s.order + [id],
                             hostID := if s.hostID == 0 then id else s.hostID, answerPile := t.answerPile, entropy := t.entropy,
                             updatedAt := now, stateVersion := t.stateVersion, published := t.published)
                  && t.entropy == s.entropy.(nextId := t.entropy.nextId, answerShuffles := t.entropy.answerShuffles)
                  && var p := t.players[id];
                     p == Player(id, p.name, p.token, 0, false, false, false, p.hand) && CleanName(name, p.name)
                     && p.token != 0 && id < t.entropy.nextId && |p.hand| == HAND_SIZE)
  {
    hide Limits, Roster, Connections, Table, JudgeFlags, SevenCards, DeckOk, Stage, DrawAnswers, Persist;
    ValidIsGood(s);
    CoreFacts(s);
    DealtHand(s.answerPile, s.deck.answers, s.entropy, s.entropy.answerShuffles, HAND_SIZE);
  }

  // --- taking a seat back ---

  // The seat is gone, everyone else sits as before.
  ghost predicate SeatTaken(before: seq<Id>, player: Id, after: seq<Id>) {
    exists i :: 0 <= i < |before| && before[i] == player && after == before[..i] + before[i + 1..]
  }

  lemma SeatTakenOut(order: seq<Id>, player: Id)
    requires player in order
    ensures SeatTaken(order, player, Without(order, player))
  {
    WithoutIsSlice(order, player);
    assert order[IndexOf(order, player)] == player;
  }

  // A seat is taken back only in the lobby and only from someone not connected. The
  // hand goes back to the pile, and a host who goes is followed by the first person
  // connected.
  lemma UndoJoinLaw(s: RoomState, player: Id, now: int)
    requires Valid(s)
    ensures var t := After(s, Event(now, UndoJoinCmd(player)));
            if player in s.players && !s.players[player].connected && s.phase == Lobby
            then SeatTaken(s.order, player, t.order) && Told(s, t, now) && Seated(t)
                 && t == s.(answerPile := s.answerPile + s.players[player].hand, players := s.players - {player}, order := t.order,
                            hostID := t.hostID, updatedAt := now, stateVersion := t.stateVersion, published := t.published)
                 && (if s.hostID == player then FirstPerson(t.players, t.order, true, t.hostID) else t.hostID == s.hostID)
            else t == s
  {
    hide Limits, Roster, Connections, Table, JudgeFlags, SevenCards, DeckOk, Stage, Persist, Without, FirstConnectedHuman, FirstPerson;
    ValidIsGood(s);
    CoreFacts(s);
    if player in s.players && !s.players[player].connected && s.phase == Lobby {
      SeatTakenOut(s.order, player);
      WithoutKeeps(s.order, player);
      FirstPersonFound(s.players - {player}, Without(s.order, player));
    }
  }

  // --- connecting ---

  // Only the player's own token opens a connection. The player is then connected, and
  // host if the room has none that is.
  lemma AttachLaw(s: RoomState, player: Id, token: Id, conn: Id, now: int)
    requires Valid(s)
    ensures var o := Step(s, Event(now, AttachCmd(player, token, conn))); var t := o.room;
            (o.error == if player !in s.players then Some(NotFound)
                        else if token != s.players[player].token then Some(InvalidToken) else None)
            && (o.error.None? ==>
                  Told(s, t, now) && Seated(t)
                  && t == s.(players := s.players[player := s.players[player].(connected := true)],
                             clients := s.clients[player := (if player in s.clients then s.clients[player] else {}) + {conn}],
                             hostID := t.hostID, updatedAt := now, stateVersion := t.stateVersion, published := t.published)
                  && (if s.hostID in s.players && (s.players[s.hostID].connected || s.hostID == player) then t.hostID == s.hostID
                      else FirstPerson(t.players, t.order, true, t.hostID)))
  {
    hide Limits, Connections, Table, JudgeFlags, SevenCards, DeckOk, Stage, Persist, FirstConnectedHuman, FirstPerson;
    ValidIsGood(s);
    CoreFacts(s);
    if player in s.players {
      FirstPersonFound(s.players[player := s.players[player].(connected := true)], s.order);
    }
  }

  // Only the last connection to go disconnects a player; a host who goes offline is
  // followed by the first person connected.
  lemma DetachLaw(s: RoomState, player: Id, conn: Id, now: int)
    requires Valid(s)
    ensures var t := After(s, Event(now, DetachCmd(player, conn)));
            Told(s, t, now) && Seated(t)
            && t == s.(players := t.players, clients := t.clients, hostID := t.hostID,
                       updatedAt := now, stateVersion := t.stateVersion, published := t.published)
            && (if player in s.clients && s.clients[player] <= {conn}
                then t.clients == s.clients - {player} && player in s.players
                     && t.players == s.players[player := s.players[player].(connected := false)]
                     && (if s.hostID == player then FirstPerson(t.players, t.order, true, t.hostID) else t.hostID == s.hostID)
                else t.players == s.players && t.hostID == s.hostID
                     && t.clients == (if player in s.clients then s.clients[player := s.clients[player] - {conn}] else s.clients))
  {
    hide Limits, Roster, Table, JudgeFlags, SevenCards, DeckOk, Stage, Persist, FirstConnectedHuman, FirstPerson;
    ValidIsGood(s);
    CoreFacts(s);
    if player in s.clients {
      FirstPersonFound(s.players[player := s.players[player].(connected := false)], s.order);
      if s.clients[player] <= {conn} {
        assert s.clients[player] - {conn} == {};
      } else {
        var other :| other in s.clients[player] && other != conn;
        assert other in s.clients[player] - {conn};
      }
    }
  }

  // --- leaving ---

  // What was held and played goes into the pile, the seat, the sockets and the card on
  // the table are gone.
  ghost predicate Gone(s: RoomState, t: RoomState, player: Id)
    requires player in s.players && Seated(t)
  {
    SeatTaken(s.order, player, t.order) && t.clients == s.clients - {player}
    && (if exists k :: k in s.submissions && s.submissions[k].playerId == player
        then exists k :: k in s.submissions && s.submissions[k].playerId == player
                         && t.answerPile == s.answerPile + s.players[player].hand + [s.submissions[k].answer]
        else t.answerPile == s.answerPile + s.players[player].hand)
    && (if s.hostID != player then t.hostID == s.hostID
        else exists online: Id :: FirstPerson(t.players, t.order, true, online)
                                  && if online != 0 then t.hostID == online else FirstPerson(t.players, t.order, false, t.hostID))
  }

  // The cards left on the table.
  ghost function Remaining(s: RoomState, player: Id): map<Id, Submission> {
    map k | k in s.submissions && s.submissions[k].playerId != player :: s.submissions[k]
  }

  // The round is void: what is left on the table goes back to the hands, and nobody
  // judges.
  ghost predicate Voided(s: RoomState, t: RoomState, player: Id) {
    t.submissions == map[] && t.judgeID == 0 && t.players.Keys == s.players.Keys - {player}
    && forall id :: id in t.players ==>
         t.players[id] == s.players[id].(isJudge := false, hand := t.players[id].hand) && TakenBack(s, id, t.players[id].hand)
  }

  lemma RemovalGone(s: RoomState, player: Id)
    requires Core(s) && player in s.players
    ensures var r := RemovePlayer(s, player);
            Seated(r) && Gone(s, r, player) && r.submissions == Remaining(s, player) && r.players == s.players - {player}
            && r == s.(answerPile := r.answerPile, submissions := r.submissions, players := r.players, order := r.order,
                       clients := r.clients, judgeIndex := r.judgeIndex, hostID := r.hostID)
            && |r.order| == |s.order| - 1
  {
    hide Core, Without, FirstConnectedHuman, FirstHuman, FirstPerson, CursorAfter, RemovePlayer, SeatTaken;
    CoreFacts(s);
    SeatTakenOut(s.order, player);
    WithoutKeeps(s.order, player);
    RemovalFrame(s, player);
    RemovalRest(s, player);
    FirstPersonFound(s.players - {player}, Without(s.order, player));
    assert s.submissions - SubmissionKeysOf(s.submissions, player) == Remaining(s, player);
    if HasSubmission(s.submissions, player) {
      var k :| k in s.submissions && s.submissions[k].playerId == player && s.submissions[k].answer == CardPlayed(s.submissions, player);
    }
  }

  lemma RemovalRest(s: RoomState, player: Id)
    requires player in s.players
    ensures var r := RemovePlayer(s, player);
            r == s.(answerPile := r.answerPile, submissions := r.submissions, players := r.players, order := r.order,
                    clients := r.clients, judgeIndex := r.judgeIndex, hostID := r.hostID)
            && r.clients == s.clients - {player} && r.hostID == HostAfter(s.players - {player}, Without(s.order, player), s.hostID, player)
            && r.answerPile == (if HasSubmission(s.submissions, player)
                                then s.answerPile + s.players[player].hand + [CardPlayed(s.submissions, player)]
                                else s.answerPile + s.players[player].hand)
  {
    hide FirstConnectedHuman, FirstHuman, CursorAfter, Without, HasSubmission, CardPlayed, SubmissionKeysOf;
    assert s.answerPile + s.players[player].hand + [] == s.answerPile + s.players[player].hand;
  }

  // Gone looks at no more than these.
  lemma StillGone(s: RoomState, r: RoomState, t: RoomState, player: Id)
    requires player in s.players && Seated(r) && Seated(t) && Gone(s, r, player)
    requires t.order == r.order && t.clients == r.clients && t.answerPile == r.answerPile && t.hostID == r.hostID
    requires t.players.Keys == r.players.Keys
    requires forall id :: id in r.players ==> t.players[id].connected == r.players[id].connected && t.players[id].isComputer == r.players[id].isComputer
    ensures Gone(s, t, player)
  {
    hide SeatTaken;
    SamePeople(r.players, t.players, r.order);
  }

  lemma SamePeople(a: map<Id, Player>, b: map<Id, Player>, order: seq<Id>)
    requires (forall id :: id in order ==> id in a) && a.Keys == b.Keys
    requires forall id :: id in a ==> a[id].connected == b[id].connected && a[id].isComputer == b[id].isComputer
    ensures forall online, id :: FirstPerson(a, order, online, id) <==> FirstPerson(b, order, online, id)
  {
    forall online, id
      ensures FirstPerson(a, order, online, id) <==> FirstPerson(b, order, online, id)
    {
      assert forall i :: 0 <= i < |order| ==> Fit(a[order[i]], online) == Fit(b[order[i]], online);
    }
  }

  // The four ways a round goes on after a departure.
  ghost predicate Resolved(s: RoomState, r: RoomState, t: RoomState, player: Id, now: int)
    requires player in s.players
  {
    t == r.(players := t.players, submissions := t.submissions, judgeID := t.judgeID,
            phase := t.phase, phaseSeq := t.phaseSeq, phaseDeadline := t.phaseDeadline, timer := t.timer, outstanding := t.outstanding,
            updatedAt := t.updatedAt, stateVersion := t.stateVersion, published := t.published)
    && if s.phase == Lobby || s.phase == Finished then
         SamePhase(s, t) && t.players == r.players && t.submissions == r.submissions && t.judgeID == s.judgeID
       else if |s.order| - 1 < MIN_PLAYERS_TO_START then
         Entered(s, t, Finished, now) && t.players == r.players && t.submissions == r.submissions && t.judgeID == s.judgeID
       else if player == s.judgeID && (s.phase == Submitting || s.phase == Judging) then
         Entered(s, t, Scoring, now) && Voided(s, t, player)
       else
         t.players == r.players && t.submissions == r.submissions && t.judgeID == s.judgeID
         && if s.phase == Submitting && (forall id :: id in t.order && id != s.judgeID ==> HasSubmission(t.submissions, id))
            then Entered(s, t, Judging, now)
            else if s.phase == Judging && t.submissions == map[] then Entered(s, t, Scoring, now)
            else SamePhase(s, t)
  }

  // Only a seated player can leave. The round is over for want of players, void for
  // want of a judge, closed when only the leaver's card was missing, scored when only
  // the leaver's card was there, and otherwise goes on.
  lemma LeaveLaw(s: RoomState, player: Id, now: int)
    requires Valid(s)
    ensures var o := Step(s, Event(now, LeaveCmd(player))); var t := o.room;
            (o.error.None? <==> player in s.players)
            && (o.error.None? ==>
                  Told(s, t, now) && Seated(t) && Gone(s, t, player)
                  && exists r: RoomState ::
                       r == s.(answerPile := r.answerPile, submissions := Remaining(s, player), players := s.players - {player},
                               order := r.order, clients := r.clients, judgeIndex := r.judgeIndex, hostID := r.hostID)
                       && Resolved(s, r, t, player, now))
  {
    hide Core, Stage, Persist, Gone, Resolved, RemovePlayer, ApplyRosterLoss, Remaining;
    ValidIsGood(s);
    ValidFacts(s);
    if player in s.players {
      RemovalGone(s, player);
      var r := RemovePlayer(s, player);
      Resolves(s, player, now);
      ResolvedPeople(s, r, Step(s, Event(now, LeaveCmd(player))).room, player, now);
      StillGone(s, r, Step(s, Event(now, LeaveCmd(player))).room, player);
    }
  }

  lemma ResolvedPeople(s: RoomState, r: RoomState, t: RoomState, player: Id, now: int)
    requires player in s.players && Resolved(s, r, t, player, now) && r.players == s.players - {player} && Seated(r)
    ensures t.order == r.order && t.clients == r.clients && t.answerPile == r.answerPile && t.hostID == r.hostID
    ensures t.players.Keys == r.players.Keys && Seated(t)
    ensures forall id :: id in r.players ==> t.players[id].connected == r.players[id].connected && t.players[id].isComputer == r.players[id].isComputer
  {
    hide TakenBack, HasSubmission, Entered;
  }

  lemma Resolves(s: RoomState, player: Id, now: int)
    requires Valid(s) && player in s.players
    ensures var t := Leave(s, player, now).room; Resolved(s, RemovePlayer(s, player), t, player, now) && Told(s, t, now)
  {
    hide Good, Persist, RemovePlayer, ApplyRosterLoss, Remaining, Gone, Resolved;
    ValidIsGood(s);
    GoodCore(s);
    CoreFacts(s);
    RemovalGone(s, player);
    var r := RemovePlayer(s, player);
    FlagIsJudge(s, player);
    var wasJudge := s.players[player].isJudge && (s.phase == Submitting || s.phase == Judging);
    LossResolves(s, r, player, now);
    TouchResolved(s, r, ApplyRosterLoss(r, wasJudge, now), player, now);
  }

  lemma FlagIsJudge(s: RoomState, player: Id)
    requires Good(s) && player in s.players
    ensures s.players[player].isJudge <==> player == s.judgeID
  {
    hide Limits, Roster, Connections, Table, SevenCards, DeckOk, Stage;
  }

  lemma TouchResolved(s: RoomState, r: RoomState, t: RoomState, player: Id, now: int)
    requires player in s.players && Seated(t) && Resolved(s, r, t, player, now) && t.stateVersion >= s.stateVersion
    ensures Resolved(s, r, Touch(t, now), player, now) && Told(s, Touch(t, now), now)
  {
    hide Persist, TakenBack, HasSubmission;
  }

  lemma LossResolves(s: RoomState, r: RoomState, player: Id, now: int)
    requires Valid(s) && player in s.players && r == RemovePlayer(s, player) && Seated(r)
    requires r.submissions == Remaining(s, player) && r.players == s.players - {player} && |r.order| == |s.order| - 1
    requires r == s.(answerPile := r.answerPile, submissions := r.submissions, players := r.players, order := r.order,
                     clients := r.clients, judgeIndex := r.judgeIndex, hostID := r.hostID)
    ensures var t := ApplyRosterLoss(r, s.players[player].isJudge && (s.phase == Submitting || s.phase == Judging), now);
            Seated(t) && Resolved(s, r, t, player, now) && t.stateVersion >= s.stateVersion
  {
    hide Good, Persist, RemovePlayer, ApplyRosterLoss, Resolved, Remaining;
    FlagIsJudge(s, player);
    if s.phase == Lobby || s.phase == Finished || |r.order| < MIN_PLAYERS_TO_START {
      RestOrEnd(s, r, player, now);
    } else if player == s.judgeID && (s.phase == Submitting || s.phase == Judging) {
      VoidsRound(s, r, player);
      VoidResolves(s, r, player, now);
    } else {
      if s.phase == Submitting {
        CoverageLeft(s, player);
      }
      PlayGoesOn(s, r, player, now);
    }
  }

  lemma RestOrEnd(s: RoomState, r: RoomState, player: Id, now: int)
    requires player in s.players && Seated(r) && |r.order| == |s.order| - 1
    requires r == s.(answerPile := r.answerPile, submissions := r.submissions, players := r.players, order := r.order,
                     clients := r.clients, judgeIndex := r.judgeIndex, hostID := r.hostID)
    requires s.phase == Lobby || s.phase == Finished || |r.order| < MIN_PLAYERS_TO_START
    ensures forall wasJudge :: var t := ApplyRosterLoss(r, wasJudge, now);
              Seated(t) && Resolved(s, r, t, player, now) && t.stateVersion >= s.stateVersion
  {
    hide Persist, ComputerTurns, TakenBack, ReturnCards, ClearJudge, HasSubmission, AllAnswerersSubmitted, Voided;
  }

  lemma VoidResolves(s: RoomState, r: RoomState, player: Id, now: int)
    requires player in s.players && Seated(r) && |r.order| == |s.order| - 1 >= MIN_PLAYERS_TO_START
    requires player == s.judgeID && (s.phase == Submitting || s.phase == Judging)
    requires r == s.(answerPile := r.answerPile, submissions := r.submissions, players := r.players, order := r.order,
                     clients := r.clients, judgeIndex := r.judgeIndex, hostID := r.hostID)
    requires var t := ClearJudge(ReturnCards(r));
             t == r.(players := t.players, submissions := map[], judgeID := 0) && Voided(s, t, player) && Seated(t)
    ensures var t := ApplyRosterLoss(r, true, now);
            Seated(t) && Resolved(s, r, t, player, now) && t.stateVersion >= s.stateVersion
  {
    hide Persist, ComputerTurns, TakenBack, ReturnCards, ClearJudge, HasSubmission, AllAnswerersSubmitted;
  }

  lemma PlayGoesOn(s: RoomState, r: RoomState, player: Id, now: int)
    requires player in s.players && Seated(r) && |r.order| == |s.order| - 1 >= MIN_PLAYERS_TO_START
    requires s.phase != Lobby && s.phase != Finished && !(player == s.judgeID && (s.phase == Submitting || s.phase == Judging))
    requires r == s.(answerPile := r.answerPile, submissions := r.submissions, players := r.players, order := r.order,
                     clients := r.clients, judgeIndex := r.judgeIndex, hostID := r.hostID)
    requires s.phase == Submitting ==>
               (AllAnswerersSubmitted(r) <==> forall id :: id in r.order && id != s.judgeID ==> HasSubmission(r.submissions, id))
               && (AllAnswerersSubmitted(r) ==> |r.submissions| > 0)
    ensures var t := ApplyRosterLoss(r, false, now);
            Seated(t) && Resolved(s, r, t, player, now) && t.stateVersion >= s.stateVersion
  {
    hide Persist, ComputerTurns, TakenBack, ReturnCards, ClearJudge, HasSubmission, AllAnswerersSubmitted, Voided;
  }

  lemma JudgeCleared(u: RoomState)
    requires Seated(u) && forall id :: id in u.players ==> id in u.order
    ensures var t := ClearJudge(u);
            t == u.(players := t.players, judgeID := 0) && t.players.Keys == u.players.Keys && Seated(t)
            && forall id :: id in u.players ==> t.players[id] == u.players[id].(isJudge := false)
  {
  }

  lemma VoidsRound(s: RoomState, r: RoomState, player: Id)
    requires Valid(s) && player in s.players && Seated(r) && player == s.judgeID && (s.phase == Submitting || s.phase == Judging)
    requires r.submissions == Remaining(s, player) && r.players == s.players - {player}
    requires r == RemovePlayer(s, player)
    ensures var t := ClearJudge(ReturnCards(r));
            t == r.(players := t.players, submissions := map[], judgeID := 0) && Voided(s, t, player) && Seated(t)
  {
    hide Core, Stage, Persist, RemovePlayer, ReturnCards, TakenBack, ClearJudge, Remaining;
    ValidIsGood(s);
    RemoveKeepsCore(s, player);
    CoreFacts(r);
    CardsReturn(r);
    JudgeCleared(ReturnCards(r));
    var t := ClearJudge(ReturnCards(r));
    forall id | id in t.players
      ensures t.players[id] == s.players[id].(isJudge := false, hand := t.players[id].hand) && TakenBack(s, id, t.players[id].hand)
    {
      SameCardBack(s, r, player, id, t.players[id].hand);
    }
  }

  lemma SameCardBack(s: RoomState, r: RoomState, player: Id, id: Id, hand: seq<AnswerCard>)
    requires id in r.players && id in s.players && r.players[id] == s.players[id] && id != player
    requires r.submissions == Remaining(s, player) && TakenBack(r, id, hand)
    ensures TakenBack(s, id, hand)
  {
    if HasSubmission(s.submissions, id) {
      var k :| k in s.submissions && s.submissions[k].playerId == id;
      assert k in r.submissions;
    }
  }

  lemma CoverageLeft(s: RoomState, player: Id)
    requires Valid(s) && s.phase == Submitting && player in s.players && player != s.judgeID && |s.order| - 1 >= MIN_PLAYERS_TO_START
    ensures var r := RemovePlayer(s, player);
            (AllAnswerersSubmitted(r) <==> forall id :: id in r.order && id != s.judgeID ==> HasSubmission(r.submissions, id))
            && (AllAnswerersSubmitted(r) ==> |r.submissions| > 0)
  {
    hide Limits, Connections, SevenCards, DeckOk, Scores, Timers, ComputersDue, Persist, RemovePlayer, HasSubmission;
    ValidIsGood(s);
    CoreFacts(s);
    var r := RemovePlayer(s, player);
    RemovalFrame(s, player);
    RemoveKeepsCore(s, player);
    StillJudged(s, player);
    CountingIsCoverage(r);
  }

  lemma StillJudged(s: RoomState, player: Id)
    requires Good(s) && s.phase == Submitting && player in s.players && player != s.judgeID && |s.order| - 1 >= MIN_PLAYERS_TO_START
    ensures var r := RemovePlayer(s, player); JudgeSeated(r.order, r.judgeIndex, r.judgeID, r.submissions)
  {
    hide Limits, Connections, SevenCards, DeckOk, Scores, Timers, ComputersDue;
    RemovalDeparts(s, player);
    JudgeStillSeated(s, RemovePlayer(s, player), player);
  }
}
