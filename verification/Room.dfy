// The live room as the program runs it: one object whose methods change its
// fields step by step (backend/internal/realtime/room.go). Every method is
// proved to do what the function of the same name in RoomRules says; what the
// game promises is proved about those functions.
//
// The room lock makes each public method one step. `now` is the clock.
module LiveRoom {
  import opened Wrappers
  import opened Sequences
  import opened Cards
  import opened RoomTypes
  import opened RoomInvariant
  import opened SubmissionOrder
  import opened RoomRestore
  import opened RoomLoops
  import opened Snapshots
  import Rules = RoomRules
  import Joins = RoomPreservation
  import Rounds = RoundPreservation

  class Room {
    const code: string
    const fullDeck: Deck
    var deck: Deck
    var phase: Phase
    var phaseSeq: nat
    var phaseDeadline: Option<int>
    var timer: Option<nat>
    var roundNumber: nat
    var prompt: Option<PromptCard>
    var hostID: Id
    var judgeID: Id
    var judgeIndex: int
    var scoreLimit: int
    var submitSecs: int
    var maxPlayers: int
    var contentTier: Tier
    var players: map<Id, Player>
    var order: seq<Id>
    var submissions: map<Id, Submission>
    var answerPile: seq<AnswerCard>
    var promptPile: seq<PromptCard>
    var clients: map<Id, set<Id>>
    const createdAt: int
    var updatedAt: int
    var stateVersion: nat
    // What the state observer was last handed.
    var published: Option<PersistedRoomState>
    // The callbacks handed to the runtime and not yet run.
    ghost var outstanding: multiset<Callback>
    var entropy: Entropy

    ghost function State(): RoomState
      reads this
    {
      RoomState(
        code, fullDeck, deck, phase, phaseSeq, phaseDeadline, timer, roundNumber, prompt,
        hostID, judgeID, judgeIndex, scoreLimit, submitSecs, maxPlayers, contentTier,
        players, order, submissions, answerPile, promptPile, clients,
        createdAt, updatedAt, stateVersion, published, outstanding, entropy)
    }

    // NewRoom, and the first snapshot to the observer the manager sets.
    constructor (code0: string, deck0: Deck, e: Entropy, now: int)
      requires deck0.Playable() && deck0.For(Family).Playable() && e.nextId > 0
      ensures Valid(State()) && State() == Rules.Observed(Rules.NewRoom(code0, deck0, e, now))
    {
      code, fullDeck, deck, contentTier := code0, deck0, deck0.For(Party), Party;
      phase, phaseSeq, phaseDeadline, timer, roundNumber, prompt := Lobby, 0, None, None, 0, None;
      hostID, judgeID, judgeIndex := 0, 0, 0;
      scoreLimit, submitSecs, maxPlayers := DEFAULT_SCORE_LIMIT, DEFAULT_SUBMIT_SECS, DEFAULT_MAX_PLAYERS;
      players, order, submissions, answerPile, promptPile, clients := map[], [], map[], [], [], map[];
      createdAt, updatedAt, stateVersion := now, now, 1;
      published, outstanding, entropy := None, multiset{}, e;
      new;
      Rounds.NewRoomValid(code0, deck0, e, now);
      ShufflePiles();
      Publish();
    }

    // The room RestoreRoom builds once its checks have passed.
    constructor Load(p: PersistedRoomState, people: map<Id, Player>, table: map<Id, Submission>, deck0: Deck, e: Entropy, now: int)
      ensures State() == Rebuilt(p, people, table, deck0, e, now)
    {
      code, fullDeck, deck, contentTier := NormalCode(p.code), deck0, deck0.For(p.contentTier), p.contentTier;
      phase, phaseSeq, phaseDeadline, timer := p.phase, AtLeastOne(p.phaseSeq), p.phaseDeadline, None;
      roundNumber, prompt := p.roundNumber, p.prompt;
      hostID, judgeID, judgeIndex := p.hostID, p.judgeID, p.judgeIndex;
      scoreLimit := Rules.ClampInt(p.scoreLimit, MIN_SCORE_LIMIT, MAX_SCORE_LIMIT, DEFAULT_SCORE_LIMIT);
      submitSecs := Rules.ClampInt(p.submitSecs, MIN_SUBMIT_SECS, MAX_SUBMIT_SECS, DEFAULT_SUBMIT_SECS);
      maxPlayers := Rules.ClampInt(p.maxPlayers, MIN_PLAYERS_TO_START, MAX_PLAYERS_CEILING, DEFAULT_MAX_PLAYERS);
      players, order, submissions, answerPile, promptPile, clients := people, p.order, table, p.answerPile, p.promptPile, map[];
      createdAt, updatedAt, stateVersion := OrNow(p.createdAt, now), OrNow(p.updatedAt, now), AtLeastOne(p.revision);
      published, outstanding, entropy := None, multiset{}, e;
      new;
      if answerPile == [] {
        ShuffleAnswers();
      }
      if promptPile == [] {
        ShufflePrompts();
      }
    }

    method Resume(now: int)
      modifies this`outstanding, this`timer
      ensures State() == RoomRestore.Resume(old(State()), now)
    {
      hide Rules.ScheduleComputerTurns;
      ghost var t := Rules.ScheduleComputerTurns(State());
      ScheduleComputerTurns();
      if timer.Some? || phaseDeadline.None? {
        return;
      }
      outstanding := outstanding + multiset{DeadlineTimer(phaseSeq)};
      if phaseDeadline.value > now {
        timer := Some(phaseSeq);
      }
    }

    // --- draw piles ---

    method ShuffleAnswers()
      modifies this`answerPile, this`entropy
      ensures State() == old(State()).(
                answerPile := Rules.AnswerShoe(deck.answers, old(entropy), old(entropy).answerShuffles),
                entropy := old(entropy).(answerShuffles := old(entropy).answerShuffles + 1))
    {
      answerPile := Shuffle(deck.answers, Rules.AnswerRoll(entropy, entropy.answerShuffles));
      entropy := entropy.(answerShuffles := entropy.answerShuffles + 1);
    }

    method ShufflePrompts()
      modifies this`promptPile, this`entropy
      ensures State() == old(State()).(
                promptPile := Rules.PromptShoe(deck.prompts, old(entropy), old(entropy).promptShuffles),
                entropy := old(entropy).(promptShuffles := old(entropy).promptShuffles + 1))
    {
      promptPile := Shuffle(deck.prompts, Rules.PromptRoll(entropy, entropy.promptShuffles));
      entropy := entropy.(promptShuffles := entropy.promptShuffles + 1);
    }

    method DrawAnswers(n: nat) returns (out: seq<AnswerCard>)
      requires deck.answers != []
      modifies this`answerPile, this`entropy
      ensures out == Rules.Deal(old(State()), n).hand
      ensures State() == Rules.AfterDeal(old(State()), Rules.Deal(old(State()), n))
    {
      var drawn := Draw(answerPile, deck.answers, entropy, n);
      out := drawn.hand;
      answerPile := drawn.pile;
      entropy := entropy.(answerShuffles := drawn.shuffles);
    }

    method DrawPrompt() returns (card: PromptCard)
      requires deck.prompts != []
      modifies this`promptPile, this`entropy
      ensures State().(prompt := Some(card)) == Rules.DrawPrompt(old(State()))
    {
      if promptPile == [] {
        Rules.ShoeNotEmpty(deck, entropy, entropy.promptShuffles);
        ShufflePrompts();
      }
      card := promptPile[|promptPile| - 1];
      promptPile := promptPile[..|promptPile| - 1];
    }

    method RefillHand(hand: seq<AnswerCard>) returns (out: seq<AnswerCard>)
      requires deck.answers != []
      modifies this`answerPile, this`entropy
      ensures |hand| >= HAND_SIZE ==> out == hand && State() == old(State())
      ensures |hand| < HAND_SIZE ==>
                var d := Rules.Deal(old(State()), HAND_SIZE - |hand|);
                out == hand + d.hand && State() == Rules.AfterDeal(old(State()), d)
    {
      if |hand| >= HAND_SIZE {
        return hand;
      }
      var drawn := DrawAnswers(HAND_SIZE - |hand|);
      return hand + drawn;
    }

    // --- bookkeeping ---

    method PersistedState() returns (saved: PersistedRoomState)
      requires Rules.Seated(State()) && Keyed(submissions)
      ensures saved == Rules.Persist(State())
    {
      var people: seq<PersistedPlayer> := [];
      var i := 0;
      while i < |order|
        invariant i <= |order| && |people| == i
        invariant forall j :: 0 <= j < i ==> people[j] == Rules.PersistPlayer(players[order[j]])
      {
        people := people + [Rules.PersistPlayer(players[order[i]])];
        i := i + 1;
      }
      var table := Sort(submissions);
      saved := PersistedRoomState(
        ROOM_STATE_VERSION, stateVersion, code, phase, phaseSeq, phaseDeadline, roundNumber, prompt,
        hostID, judgeID, judgeIndex, scoreLimit, submitSecs, maxPlayers, contentTier,
        people, order, table, answerPile, promptPile, createdAt, updatedAt);
    }

    // touch: the state observer is always set, as the manager sees to.
    method Touch(now: int)
      requires Rules.Seated(State()) && Keyed(submissions)
      modifies this`updatedAt, this`stateVersion, this`published
      ensures State() == Rules.Touch(old(State()), now)
    {
      updatedAt := now;
      stateVersion := stateVersion + 1;
      Publish();
    }

    method Publish()
      requires Rules.Seated(State()) && Keyed(submissions)
      modifies this`published
      ensures State() == old(State()).(published := Some(Rules.Persist(old(State()))))
    {
      var saved := PersistedState();
      published := Some(saved);
    }

    method EnterPhase(p: Phase, seconds: int, now: int)
      modifies this`phase, this`phaseSeq, this`phaseDeadline, this`timer, this`outstanding
      ensures State() == Rules.SetPhase(old(State()), p, seconds, now)
    {
      phase := p;
      phaseSeq := phaseSeq + 1;
      ArmTimer(seconds, now);
    }

    method ArmTimer(seconds: int, now: int)
      modifies this`phaseDeadline, this`timer, this`outstanding
      ensures State() == Rules.Arm(old(State()), seconds, now)
    {
      timer := None;
      if seconds > 0 {
        phaseDeadline := Some(now + seconds);
        timer := Some(phaseSeq);
        outstanding := outstanding + multiset{DeadlineTimer(phaseSeq)};
      } else {
        phaseDeadline := None;
      }
    }

    method HasSubmission(player: Id) returns (found: bool)
      ensures found == Rules.HasSubmission(submissions, player)
    {
      var left := submissions.Keys;
      while left != {}
        invariant left <= submissions.Keys
        invariant forall k :: k in submissions && k !in left ==> submissions[k].playerId != player
        decreases |left|
      {
        var k :| k in left;
        if submissions[k].playerId == player {
          return true;
        }
        left := left - {k};
      }
      return false;
    }

    method ReassignHost()
      modifies this`hostID
      ensures State() == old(State()).(hostID := Rules.FirstConnectedHuman(players, order))
    {
      var i := 0;
      while i < |order|
        invariant i <= |order| && hostID == old(hostID)
        invariant Rules.FirstConnectedHuman(players, order) == Rules.FirstConnectedHuman(players, order[i..])
      {
        var id := order[i];
        if id in players && players[id].connected && !players[id].isComputer {
          hostID := id;
          return;
        }
        i := i + 1;
      }
      hostID := 0;
    }

    method ScheduleComputerTurns()
      modifies this`outstanding
      ensures State() == Rules.ScheduleComputerTurns(old(State()))
    {
      var turns := TurnsDue(phase, phaseSeq, judgeID, order, players, submissions);
      outstanding := outstanding + multiset(turns);
    }

    // --- joining ---

    method TakeSeat(p: Player)
      modifies this`players, this`order, this`hostID
      ensures State() == old(State()).(players := old(players)[p.id := p], order := old(order) + [p.id],
                                       hostID := if old(hostID) == 0 then p.id else old(hostID))
    {
      players := players[p.id := p];
      order := order + [p.id];
      if hostID == 0 {
        hostID := p.id;
      }
    }

    method NewId(used: nat) returns (id: Id)
      modifies this`entropy
      ensures id == old(entropy).nextId
      ensures State() == old(State()).(entropy := old(entropy).(nextId := id + used))
    {
      id := entropy.nextId;
      entropy := entropy.(nextId := id + used);
    }

    // A player with a fresh id, token and hand, not seated yet.
    method MakePlayer(name: string, isComputer: bool) returns (p: Player)
      requires deck.answers != []
      modifies this`answerPile, this`entropy
      ensures p == NewPlayer(old(State()), name, isComputer)
      ensures State() == BeforeSeating(old(State()))
    {
      hide Rules.DrawAnswers;
      var clean := Rules.ClampName(name);
      if clean == "" {
        clean := "Guest";
      }
      var hand := DrawAnswers(HAND_SIZE);
      var id := NewId(2);
      p := Player(id, clean, id + 1, 0, isComputer, isComputer, false, hand);
    }

    method AddPlayer(name: string, isComputer: bool, now: int) returns (p: Player)
      requires deck.answers != [] && Rules.Seated(State()) && Keyed(submissions)
      modifies this
      ensures State() == Rules.AddPlayer(old(State()), name, isComputer, now)
      ensures p.id == old(entropy).nextId && p.id in players && players[p.id] == p
    {
      hide Rules.DrawAnswers, Rules.Persist;
      p := MakePlayer(name, isComputer);
      TakeSeat(p);
      Touch(now);
    }

    method TryJoin(name: string, now: int) returns (r: Result<Player, RoomError>)
      requires Valid(State())
      modifies this
      ensures Valid(State()) && State() == Rules.TryJoin(old(State()), name, now).room
      ensures Rules.TryJoin(old(State()), name, now).error == if r.Failure? then Some(r.error) else None
      ensures r.Success? ==> r.value.id !in old(players) && r.value.id in players && players[r.value.id] == r.value
    {
      hide Good, Rules.AddPlayer;
      ghost var s := State();
      ReadyToChange(s);
      if !Rules.ValidPlayerName(name) {
        return Failure(InvalidName);
      }
      if |order| >= maxPlayers {
        return Failure(RoomFull);
      }
      Joins.AddPlayerKeeps(s, name, false, now);
      var p := AddPlayer(name, false, now);
      return Success(p);
    }

    // --- leaving ---

    // Where the player sat, or -1.
    method DropSeat(player: Id) returns (index: int)
      modifies this`order
      ensures State() == old(State()).(order := Without(old(order), player))
      ensures index == if player in old(order) then IndexOf(old(order), player) else -1
    {
      WithoutIsSlice(order, player);
      index := -1;
      var i := 0;
      while i < |order|
        invariant i <= |order| && player !in order[..i] && order == old(order) && index == -1
      {
        if order[i] == player {
          index := i;
          FirstAt(order, player, i);
          order := order[..i] + order[i + 1..];
          return;
        }
        i := i + 1;
      }
    }

    method UndoJoin(player: Id, now: int)
      requires Valid(State())
      modifies this
      ensures Valid(State()) && State() == Rules.UndoJoin(old(State()), player, now)
    {
      hide Good, Without;
      ghost var s := State();
      ReadyToChange(s);
      Rounds.UndoJoinKeeps(s, player, now);
      if player !in players || players[player].connected || phase != Lobby {
        return;
      }
      GiveUpSeat(player);
      if hostID == player {
        ReassignHost();
      }
      WithoutKeeps(s.order, player);
      Touch(now);
    }

    // The hand goes back under the pile, so the next joiner still draws distinct answers.
    method GiveUpSeat(player: Id)
      requires player in players
      modifies this`answerPile, this`players, this`order
      ensures State() == old(State()).(answerPile := old(answerPile) + old(players)[player].hand,
                                       players := old(players) - {player}, order := Without(old(order), player))
    {
      answerPile := answerPile + players[player].hand;
      players := players - {player};
      var index := DropSeat(player);
    }

    // The player's live card goes back under the pile.
    method ReclaimCards(player: Id)
      requires Table(players, submissions, entropy.nextId)
      modifies this`answerPile, this`submissions
      ensures State() == old(State()).(
                answerPile := old(answerPile) + LiveCards(old(submissions), player),
                submissions := old(submissions) - Rules.SubmissionKeysOf(old(submissions), player))
    {
      var cards, kept := TakeCards(submissions, player);
      answerPile := answerPile + cards;
      submissions := kept;
    }

    method RemovePlayer(player: Id)
      requires player in players && judgeIndex >= 0 && Table(players, submissions, entropy.nextId)
      modifies this
      ensures State() == Rules.RemovePlayer(old(State()), player)
    {
      answerPile := answerPile + players[player].hand;
      ReclaimCards(player);
      Unseat(player);
      ForgetPlayer(player);
      if hostID == player {
        FindHost();
      }
    }

    // The seat goes and the judge cursor, a position in the order, follows.
    method Unseat(player: Id)
      requires judgeIndex >= 0
      modifies this`order, this`judgeIndex
      ensures State() == old(State()).(order := Without(old(order), player),
                                       judgeIndex := Rules.CursorAfter(old(order), old(judgeIndex), player))
    {
      var index := DropSeat(player);
      if index >= 0 && index <= judgeIndex {
        judgeIndex := judgeIndex - 1;
      }
      WrapCursor();
    }

    method WrapCursor()
      requires judgeIndex >= -1
      modifies this`judgeIndex
      ensures State() == old(State()).(judgeIndex := if |order| > 0 then old(judgeIndex) % |order| else 0)
    {
      if |order| > 0 {
        CursorWraps(judgeIndex, |order|);
        judgeIndex := (GoRem(judgeIndex, |order|) + |order|) % |order|;
      } else {
        judgeIndex := 0;
      }
    }

    method ForgetPlayer(player: Id)
      modifies this`players, this`clients
      ensures State() == old(State()).(players := old(players) - {player}, clients := old(clients) - {player})
    {
      players := players - {player};
      clients := clients - {player};
    }

    // Someone connected if possible, otherwise the first person in the order.
    method FindHost()
      modifies this`hostID
      ensures State() == old(State()).(
                hostID := if Rules.FirstConnectedHuman(players, order) != 0 then Rules.FirstConnectedHuman(players, order)
                          else Rules.FirstHuman(players, order))
    {
      ReassignHost();
      if hostID == 0 {
        var i := 0;
        while i < |order|
          invariant i <= |order| && hostID == 0
          invariant Rules.FirstHuman(players, order) == Rules.FirstHuman(players, order[i..])
        {
          if order[i] in players && !players[order[i]].isComputer {
            hostID := order[i];
            return;
          }
          i := i + 1;
        }
      }
    }

    // Every card on the table back to the hand it came from.
    method ReturnCards()
      requires Table(players, submissions, entropy.nextId)
      modifies this`players, this`submissions
      ensures State() == Rules.ReturnCards(old(State()))
    {
      players := HandBack(players, submissions);
      submissions := map[];
    }

    method ClearJudge()
      requires Rules.Seated(State())
      modifies this`players, this`judgeID
      ensures State() == Rules.ClearJudge(old(State()))
    {
      players := MarkNobody(players, order);
      judgeID := 0;
    }

    method BeginJudging(now: int)
      requires Rules.Seated(State()) && Keyed(submissions)
      modifies this
      ensures State() == Rules.BeginJudging(old(State()), now)
    {
      hide Rules.Persist;
      if |submissions| == 0 {
        EnterPhase(Scoring, 0, now);
        Touch(now);
        return;
      }
      EnterPhase(Judging, JUDGE_SECONDS, now);
      Touch(now);
    }

    method ApplyRosterLoss(wasJudge: bool, now: int)
      requires Rules.Seated(State()) && Distinct(order) && Keyed(submissions) && Table(players, submissions, entropy.nextId)
      modifies this
      ensures State() == Rules.ApplyRosterLoss(old(State()), wasJudge, now)
    {
      hide Rules.SetPhase, Rules.ReturnCards, Rules.ClearJudge, Rules.BeginJudging, Rules.ScheduleComputerTurns, Rules.Persist;
      if phase == Lobby || phase == Finished {
        return;
      }
      if |order| < MIN_PLAYERS_TO_START {
        EnterPhase(Finished, 0, now);
        return;
      }
      if wasJudge {
        VoidRound(now);
        return;
      }
      if phase == Submitting {
        if |order| - 1 > 0 && |submissions| >= |order| - 1 {
          JudgingKeepsOrder(State(), now);
          BeginJudging(now);
          ScheduleComputerTurns();
        }
      } else if phase == Judging && |submissions| == 0 {
        EnterPhase(Scoring, 0, now);
      }
    }

    // Nobody can award the round: cards go back, and there is no judge.
    method VoidRound(now: int)
      requires Rules.Seated(State()) && Table(players, submissions, entropy.nextId)
      modifies this
      ensures State() == Rules.SetPhase(Rules.ClearJudge(Rules.ReturnCards(old(State()))), Scoring, 0, now)
    {
      hide Rules.SetPhase, Rules.ClearJudge, Rules.TakeBack;
      ReturnCards();
      ClearJudge();
      EnterPhase(Scoring, 0, now);
    }

    method Leave(player: Id, now: int) returns (error: Option<RoomError>)
      requires Valid(State())
      modifies this
      ensures Valid(State()) && State() == Rules.Leave(old(State()), player, now).room
      ensures error == Rules.Leave(old(State()), player, now).error
    {
      hide Good, Table, Rules.RemovePlayer, Rules.ApplyRosterLoss, Rules.Persist;
      ghost var s := State();
      ReadyToChange(s);
      if player !in players {
        return Some(NotFound);
      }
      Joins.LeaveKeeps(s, player, now);
      AfterRemoval(s, player);
      var wasJudge := players[player].isJudge && (phase == Submitting || phase == Judging);
      RemovePlayer(player);
      LossKeepsSeats(State(), wasJudge, now);
      ApplyRosterLoss(wasJudge, now);
      Touch(now);
      return None;
    }

    // --- connections ---

    method Attach(player: Id, token: Id, conn: Id, now: int) returns (error: Option<RoomError>)
      requires Valid(State())
      modifies this
      ensures Valid(State()) && State() == Rules.Attach(old(State()), player, token, conn, now).room
      ensures error == Rules.Attach(old(State()), player, token, conn, now).error
    {
      hide Good, Table, Rules.Persist;
      ghost var s := State();
      ReadyToChange(s);
      Rounds.AttachKeeps(s, player, token, conn, now);
      if player !in players {
        return Some(NotFound);
      }
      if !Rules.ValidGuestToken(players[player].token, token) {
        return Some(InvalidToken);
      }
      players := players[player := players[player].(connected := true)];
      if hostID !in players || !players[hostID].connected {
        ReassignHost();
      }
      OpenSocket(player, conn);
      Touch(now);
      return None;
    }

    method OpenSocket(player: Id, conn: Id)
      modifies this`clients
      ensures State() == old(State()).(
                clients := old(clients)[player := (if player in old(clients) then old(clients)[player] else {}) + {conn}])
    {
      if player !in clients {
        clients := clients[player := {}];
      }
      clients := clients[player := clients[player] + {conn}];
    }

    method Detach(player: Id, conn: Id, now: int)
      requires Valid(State())
      modifies this
      ensures Valid(State()) && State() == Rules.Detach(old(State()), player, conn, now)
    {
      hide Good, Table, Rules.Persist;
      ghost var s := State();
      ReadyToChange(s);
      Rounds.DetachKeeps(s, player, conn, now);
      if player in clients {
        CloseSocket(player, conn);
        assert s.clients[player := s.clients[player] - {conn}] - {player} == s.clients - {player};
        if clients[player] == {} {
          GoOffline(player);
          if player == hostID {
            ReassignHost();
          }
        }
      }
      Touch(now);
    }

    method CloseSocket(player: Id, conn: Id)
      requires player in clients
      modifies this`clients
      ensures State() == old(State()).(clients := old(clients)[player := old(clients)[player] - {conn}])
    {
      clients := clients[player := clients[player] - {conn}];
    }

    method GoOffline(player: Id)
      modifies this`clients, this`players
      ensures State() == old(State()).(
                clients := old(clients) - {player},
                players := if player in old(players)
                           then old(players)[player := old(players)[player].(connected := false)] else old(players))
    {
      clients := clients - {player};
      if player in players {
        players := players[player := players[player].(connected := false)];
      }
    }

    // --- rounds ---

    method NextPrompt()
      requires deck.prompts != []
      modifies this`prompt, this`promptPile, this`entropy
      ensures State() == Rules.DrawPrompt(old(State()))
    {
      var card := DrawPrompt();
      prompt := Some(card);
    }

    // One turn of the loop over the order in beginRoundLocked.
    method DealIn(id: Id)
      requires deck.answers != [] && id in players
      modifies this`players, this`answerPile, this`entropy
      ensures State() == DealtIn(old(State()), id)
    {
      var p := players[id];
      var hand := RefillHand(p.hand);
      players := players[id := p.(isJudge := id == judgeID, hand := hand)];
    }

    method DealRound()
      requires deck.answers != [] && Rules.Seated(State())
      modifies this`players, this`answerPile, this`entropy
      ensures State() == Rules.RefillAll(old(State()).(players := Rules.MarkJudge(old(players), order, judgeID)), order)
    {
      hide DealtIn;
      ghost var s := State();
      var i := 0;
      while i < |order|
        invariant i <= |order| && deck == s.deck && order == s.order && Rules.Seated(State())
        invariant DealtAll(State(), order[i..]) == DealtAll(s, order)
      {
        DealtInFrame(State(), order[i]);
        assert order[i..][0] == order[i] && order[i..][1..] == order[i + 1..];
        DealIn(order[i]);
        i := i + 1;
      }
      DealtAllRefills(s, order);
      DealtEveryone(s);
    }

    method BeginRound(now: int)
      requires deck.Playable() && order != [] && judgeIndex >= 0 && Rules.Seated(State())
      modifies this
      ensures State() == Rules.BeginRound(old(State()), now)
    {
      hide Rules.DrawPrompt, Rules.RefillAll, Rules.SetPhase, Rules.Persist;
      ghost var s := State();
      ClearRound();
      PromptFrame(State());
      NextPrompt();
      NameJudge();
      ghost var u := State().(players := Rules.MarkJudge(players, order, judgeID));
      Rules.RefillAllFrame(u, order);
      DealRound();
      OpenAnswers(now);
    }

    method ClearRound()
      modifies this`roundNumber, this`submissions
      ensures State() == old(State()).(roundNumber := old(roundNumber) + 1, submissions := map[])
    {
      roundNumber := roundNumber + 1;
      submissions := map[];
    }

    method NameJudge()
      requires order != [] && judgeIndex >= 0
      modifies this`judgeID
      ensures State() == old(State()).(judgeID := order[judgeIndex % |order|])
    {
      judgeID := order[judgeIndex % |order|];
    }

    method OpenAnswers(now: int)
      requires Rules.Seated(State()) && Keyed(submissions)
      modifies this
      ensures State() == Rules.Touch(Rules.SetPhase(old(State()), Submitting, old(submitSecs), now), now)
    {
      hide Rules.Persist;
      EnterPhase(Submitting, submitSecs, now);
      Touch(now);
    }

    method StartGame(caller: Id, now: int) returns (error: Option<RoomError>)
      requires Valid(State())
      modifies this
      ensures Valid(State()) && State() == Rules.StartGame(old(State()), caller, now).room
      ensures error == Rules.StartGame(old(State()), caller, now).error
    {
      hide Good, Table, Rules.BeginRound, Rules.Persist, Rules.ScheduleComputerTurns;
      ghost var s := State();
      ReadyToChange(s);
      Rounds.StartGameKeeps(s, caller, now);
      if caller != hostID {
        return Some(NotHost);
      }
      if phase != Lobby {
        return Some(GameInProgress);
      }
      if |order| < MIN_PLAYERS_TO_START {
        return Some(NeedPlayers);
      }
      judgeIndex := 0;
      BeginAndSchedule(now);
      return None;
    }

    method BeginAndSchedule(now: int)
      requires deck.Playable() && order != [] && judgeIndex >= 0 && Rules.Seated(State()) && Distinct(order)
      modifies this
      ensures State() == Rules.ScheduleComputerTurns(Rules.BeginRound(old(State()), now))
    {
      hide Rules.BeginRound, Rules.ScheduleComputerTurns;
      BeginKeepsOrder(State(), now);
      BeginRound(now);
      ScheduleComputerTurns();
    }

    method NextComputerName() returns (name: string)
      requires Rules.Seated(State())
      ensures name == Rules.NextComputerName(Rules.NamesInUse(State()))
    {
      var used: set<string> := {};
      var i := 0;
      while i < |order|
        invariant i <= |order|
        invariant used == set id | id in order[..i] && id in players :: players[id].name
      {
        used := used + {players[order[i]].name};
        assert order[..i + 1] == order[..i] + [order[i]];
        i := i + 1;
      }
      assert order[..|order|] == order;
      var j := 0;
      while j < |Rules.COMPUTER_NAMES|
        invariant j <= |Rules.COMPUTER_NAMES|
        invariant Rules.FirstUnused(Rules.COMPUTER_NAMES, used) == Rules.FirstUnused(Rules.COMPUTER_NAMES[j..], used)
      {
        if Rules.COMPUTER_NAMES[j] !in used {
          return Rules.COMPUTER_NAMES[j];
        }
        assert Rules.COMPUTER_NAMES[j..][1..] == Rules.COMPUTER_NAMES[j + 1..];
        j := j + 1;
      }
      return "CPU Guest";
    }

    method FirstComputerIndex() returns (index: nat)
      ensures index == Rules.FirstComputerIndex(players, order, 0)
    {
      var i := 0;
      while i < |order|
        invariant i <= |order|
        invariant Rules.FirstComputerIndex(players, order, 0) == Rules.FirstComputerIndex(players, order, i)
      {
        if order[i] in players && players[order[i]].isComputer {
          return i;
        }
        i := i + 1;
      }
      return 0;
    }

    method SeatComputers(now: int) returns (error: Option<RoomError>)
      requires deck.Playable() && Rules.Seated(State()) && Keyed(submissions)
      modifies this
      ensures State() == Rules.SeatComputers(old(State()), now).room
      ensures error == Rules.SeatComputers(old(State()), now).error
    {
      hide Rules.AddPlayer;
      ghost var s := State();
      while |order| < MIN_PLAYERS_TO_START
        invariant deck.Playable() && Rules.Seated(State()) && Keyed(submissions)
        invariant Rules.SeatComputers(State(), now) == Rules.SeatComputers(s, now)
        decreases MIN_PLAYERS_TO_START - |order|
      {
        if |order| >= maxPlayers {
          return Some(RoomFull);
        }
        var name := NextComputerName();
        SeatedFrame(State(), name, now);
        var p := AddPlayer(name, true, now);
      }
      return None;
    }

    method StartComputerGame(caller: Id, now: int) returns (error: Option<RoomError>)
      requires Valid(State()) && caller != 0
      modifies this
      ensures Valid(State()) && State() == Rules.StartComputerGame(old(State()), caller, now).room
      ensures error == Rules.StartComputerGame(old(State()), caller, now).error
    {
      hide Good, Table, Rules.BeginRound, Rules.Persist, Rules.ScheduleComputerTurns, Rules.SeatComputers;
      ghost var s := State();
      ReadyToChange(s);
      Rounds.StartComputerGameKeeps(s, caller, now);
      if caller != hostID {
        return Some(NotHost);
      }
      if phase != Lobby {
        return Some(GameInProgress);
      }
      Rules.SeatComputersFrame(s, now);
      SeatsStayDistinct(s, now);
      error := SeatComputers(now);
      if error.Some? {
        return;
      }
      judgeIndex := FirstComputerIndex();
      BeginAndSchedule(now);
    }

    method NextRound(caller: Id, now: int) returns (error: Option<RoomError>)
      requires Valid(State())
      modifies this
      ensures Valid(State()) && (old(State()).phase == Scoring ==> old(order) != [])
      ensures State() == Rules.NextRound(old(State()), caller, now).room
      ensures error == Rules.NextRound(old(State()), caller, now).error
    {
      hide Good, Table, Rules.BeginRound, Rules.Persist, Rules.ScheduleComputerTurns;
      ghost var s := State();
      ReadyToChange(s);
      Rounds.NextRoundKeeps(s, caller, now);
      if caller != hostID {
        return Some(NotHost);
      }
      if phase != Scoring {
        return Some(NotScoring);
      }
      ModInRange(judgeIndex + 1, |order|);
      judgeIndex := (judgeIndex + 1) % |order|;
      BeginAndSchedule(now);
      return None;
    }

    method EndGame(caller: Id, now: int) returns (error: Option<RoomError>)
      requires Valid(State())
      modifies this
      ensures Valid(State()) && State() == Rules.EndGame(old(State()), caller, now).room
      ensures error == Rules.EndGame(old(State()), caller, now).error
    {
      hide Good, Table, Rules.Persist;
      ghost var s := State();
      ReadyToChange(s);
      Rounds.EndGameKeeps(s, caller, now);
      if caller != hostID {
        return Some(NotHost);
      }
      if phase == Lobby {
        return Some(NoGame);
      }
      EnterPhase(Finished, 0, now);
      Touch(now);
      return None;
    }

    method SkipPrompt(caller: Id, now: int) returns (error: Option<RoomError>)
      requires Valid(State())
      modifies this
      ensures Valid(State()) && State() == Rules.SkipPrompt(old(State()), caller, now).room
      ensures error == Rules.SkipPrompt(old(State()), caller, now).error
    {
      hide Good, Rules.Persist, Rules.DrawPrompt, Rules.TakeBack, Rules.SetPhase, Rules.ScheduleComputerTurns;
      ghost var s := State();
      ReadyToChange(s);
      Rounds.SkipPromptKeeps(s, caller, now);
      if caller != hostID {
        return Some(NotHost);
      }
      if phase != Submitting {
        return Some(CannotSkip);
      }
      ReturnCards();
      PromptFrame(State());
      NextPrompt();
      ReopenAnswers(now);
      return None;
    }

    method ReopenAnswers(now: int)
      requires Rules.Seated(State()) && Distinct(order) && Keyed(submissions)
      modifies this
      ensures State() == Rules.Touch(Rules.ScheduleComputerTurns(Rules.SetPhase(old(State()), Submitting, old(submitSecs), now)), now)
    {
      hide Rules.Persist, Rules.ComputerTurns;
      EnterPhase(Submitting, submitSecs, now);
      ScheduleComputerTurns();
      Touch(now);
    }

    // One turn of the range over the players in PlayAgain.
    method ResetSeat(id: Id)
      requires deck.answers != [] && id in players
      modifies this`players, this`answerPile, this`entropy
      ensures State() == SeatReset(old(State()), id)
    {
      var p := players[id];
      var hand := RefillHand(p.hand);
      players := players[id := p.(score := 0, isJudge := false, hand := hand)];
    }

    // `visit` is the order in which the map was ranged over.
    method ResetPlayers() returns (ghost visit: seq<Id>)
      requires deck.answers != []
      modifies this`players, this`answerPile, this`entropy
      ensures Distinct(visit) && forall id :: id in visit <==> id in old(players)
      ensures State() == Rules.RefillAll(PlayersReset(old(State())), visit)
    {
      hide SeatReset, Visited;
      ghost var s := State();
      visit := [];
      VisitNone(players.Keys);
      var left := players.Keys;
      while left != {}
        invariant deck == s.deck && players.Keys == s.players.Keys
        invariant Visited(visit, s.players.Keys, left)
        invariant State() == AllReset(s, visit)
        decreases |left|
      {
        var id :| id in left;
        SeatResetFrame(State(), id);
        AllResetSnoc(s, visit, id);
        VisitOne(visit, s.players.Keys, left, id);
        ResetSeat(id);
        visit := visit + [id];
        left := left - {id};
      }
      VisitedAll(visit, s.players.Keys);
      AllResetRefills(s, visit);
      EveryoneReset(s, visit);
    }

    method PlayAgain(caller: Id, now: int) returns (error: Option<RoomError>, ghost visit: seq<Id>)
      requires Valid(State())
      modifies this
      ensures Valid(State()) && Distinct(visit) && forall id :: id in visit <==> id in old(players)
      ensures State() == Rules.PlayAgain(old(State()), caller, visit, now).room
      ensures error == Rules.PlayAgain(old(State()), caller, visit, now).error
    {
      hide Good, Table, Rules.Persist, Rules.RefillAll;
      ghost var s := State();
      ReadyToChange(s);
      if caller != hostID || phase != Finished {
        visit := s.order;
        Joins.CoreFacts(s);
        return if caller != hostID then Some(NotHost) else Some(NotFinished), visit;
      }
      ForgetGame();
      visit := ResetPlayers();
      Rounds.PlayAgainKeeps(s, caller, visit, now);
      WipedIsReset(s);
      Rules.RefillAllFrame(Rounds.Wiped(s), visit);
      BackToLobby(now);
      error := None;
    }

    method ForgetGame()
      modifies this`roundNumber, this`judgeIndex, this`judgeID, this`prompt, this`submissions
      ensures State() == old(State()).(roundNumber := 0, judgeIndex := 0, judgeID := 0, prompt := None, submissions := map[])
    {
      roundNumber := 0;
      judgeIndex := 0;
      ForgetRound();
    }

    method ForgetRound()
      modifies this`judgeID, this`prompt, this`submissions
      ensures State() == old(State()).(judgeID := 0, prompt := None, submissions := map[])
    {
      judgeID := 0;
      prompt := None;
      submissions := map[];
    }

    method BackToLobby(now: int)
      requires Rules.Seated(State()) && Keyed(submissions)
      modifies this
      ensures State() == Rules.Touch(Rules.SetPhase(old(State()), Lobby, 0, now), now)
    {
      hide Rules.Persist;
      EnterPhase(Lobby, 0, now);
      Touch(now);
    }

    // --- settings ---

    method Tune(v: Settings)
      modifies this`scoreLimit, this`submitSecs, this`maxPlayers
      ensures State() == Rounds.Tuned(old(State()), v)
    {
      scoreLimit := Rules.ClampInt(v.scoreLimit, MIN_SCORE_LIMIT, MAX_SCORE_LIMIT, scoreLimit);
      submitSecs := Rules.ClampInt(v.roundSeconds, MIN_SUBMIT_SECS, MAX_SUBMIT_SECS, submitSecs);
      var floor := |order|;
      if floor < MIN_PLAYERS_TO_START {
        floor := MIN_PLAYERS_TO_START;
      }
      maxPlayers := Rules.ClampInt(v.maxPlayers, floor, MAX_PLAYERS_CEILING, maxPlayers);
    }

    method ShufflePiles()
      modifies this`answerPile, this`promptPile, this`entropy
      ensures State() == Rules.FreshPiles(old(State()))
    {
      ShuffleAnswers();
      ShufflePrompts();
    }

    method Redeal(id: Id)
      requires deck.answers != [] && id in players
      modifies this`players, this`answerPile, this`entropy
      ensures var d := Rules.Deal(old(State()), HAND_SIZE);
              State() == Rules.AfterDeal(old(State()), d).(players := old(players)[id := old(players)[id].(hand := d.hand)])
    {
      var hand := DrawAnswers(HAND_SIZE);
      players := players[id := players[id].(hand := hand)];
    }

    method RedealAll()
      requires deck.answers != [] && Rules.Seated(State())
      modifies this`players, this`answerPile, this`entropy
      ensures State() == Rules.RedealAll(old(State()), order)
    {
      hide Rules.DrawAnswers;
      ghost var s := State();
      var i := 0;
      while i < |order|
        invariant i <= |order| && deck == s.deck && order == s.order && Rules.Seated(State())
        invariant Rules.RedealAll(State(), order[i..]) == Rules.RedealAll(s, order)
      {
        assert order[i..][0] == order[i] && order[i..][1..] == order[i + 1..];
        Redeal(order[i]);
        i := i + 1;
      }
    }

    method SwitchTier(tier: Tier)
      requires fullDeck.For(tier).Playable() && Rules.Seated(State())
      modifies this
      ensures State() == Rules.ChangeTier(old(State()), tier)
    {
      hide Rules.FreshPiles;
      AdoptTier(tier);
      PilesFrame(State());
      ShufflePiles();
      RedealAll();
    }

    method AdoptTier(tier: Tier)
      modifies this`contentTier, this`deck
      ensures State() == old(State()).(contentTier := tier, deck := fullDeck.For(tier))
    {
      contentTier := tier;
      deck := fullDeck.For(tier);
    }

    method UpdateSettings(caller: Id, settings: Option<Settings>, now: int) returns (error: Option<RoomError>)
      requires Valid(State())
      modifies this
      ensures Valid(State()) && fullDeck.For(Party).Playable() && fullDeck.For(Family).Playable()
      ensures State() == Rules.UpdateSettings(old(State()), caller, settings, now).room
      ensures error == Rules.UpdateSettings(old(State()), caller, settings, now).error
    {
      hide Good, Table, Rules.Persist, Rules.ClampInt;
      ghost var s := State();
      ReadyToChange(s);
      Rounds.UpdateSettingsKeeps(s, caller, settings, now);
      if caller != hostID {
        return Some(NotHost);
      }
      if phase != Lobby {
        return Some(LobbyOnly);
      }
      if settings.None? {
        return Some(NoSettings);
      }
      var v := settings.value;
      Tune(v);
      if v.contentTier.Some? && v.contentTier.value != contentTier {
        TierFrame(State(), v.contentTier.value);
        SwitchTier(v.contentTier.value);
      }
      Touch(now);
      return None;
    }

    // --- answers and verdicts ---

    method PlayCard(player: Id, answerId: string, now: int) returns (error: Option<RoomError>)
      requires Rules.Seated(State()) && Keyed(submissions)
      modifies this
      ensures State() == Rules.PlayCard(old(State()), player, answerId, now).room
      ensures error == Rules.PlayCard(old(State()), player, answerId, now).error
    {
      hide Rules.BeginJudging, Rules.HasSubmission;
      if phase != Submitting {
        return Some(NotAccepting);
      }
      if player == judgeID {
        return Some(JudgeDoesNotSubmit);
      }
      if player !in players {
        return Some(NotFound);
      }
      var submitted := HasSubmission(player);
      if submitted {
        return Some(AlreadySubmitted);
      }
      var index := FindCard(players[player].hand, answerId);
      if index == |players[player].hand| {
        return Some(CardNotInHand);
      }
      PutDown(player, index, now);
      if |order| - 1 > 0 && |submissions| >= |order| - 1 {
        BeginJudging(now);
      }
      return None;
    }

    method PutDown(player: Id, index: nat, now: int)
      requires player in players && index < |players[player].hand|
      modifies this`players, this`submissions, this`entropy
      ensures State() == Rounds.CardDown(old(State()), player, index, now)
    {
      var p := players[player];
      players := players[player := p.(hand := p.hand[..index] + p.hand[index + 1..])];
      var id := NewId(1);
      submissions := submissions[id := Submission(id, player, p.name, p.hand[index], now, false)];
    }

    method SubmitAnswer(player: Id, answerId: string, now: int) returns (error: Option<RoomError>)
      requires Valid(State())
      modifies this
      ensures Valid(State()) && State() == Rules.SubmitAnswer(old(State()), player, answerId, now).room
      ensures error == Rules.SubmitAnswer(old(State()), player, answerId, now).error
    {
      hide Good, Table, Rules.PlayCard, Rules.ScheduleComputerTurns, Rules.Persist;
      ghost var s := State();
      ReadyToChange(s);
      Rounds.SubmitAnswerKeeps(s, player, answerId, now);
      PlayedSeats(s, player, answerId, now);
      error := PlayCard(player, answerId, now);
      if error.Some? {
        Rounds.RefusedCard(s, player, answerId, now);
        return;
      }
      ScheduleComputerTurns();
      ScheduledSeats(Rules.PlayCard(s, player, answerId, now).room);
      Touch(now);
    }

    method Award(sid: Id, now: int)
      requires sid in submissions && Rules.Seated(State()) && Keyed(submissions)
      modifies this
      ensures State() == Rules.Award(old(State()), sid, now)
    {
      hide Rules.SetPhase, Rules.Persist;
      var sub := submissions[sid];
      submissions := submissions[sid := sub.(isWinner := true)];
      var reachedLimit := false;
      if sub.playerId in players {
        var p := players[sub.playerId];
        players := players[sub.playerId := p.(score := p.score + 1)];
        reachedLimit := p.score + 1 >= scoreLimit;
      }
      PhaseSeats(State(), if reachedLimit then Finished else Scoring, now);
      EnterPhase(if reachedLimit then Finished else Scoring, 0, now);
      Touch(now);
    }

    method PickWinner(judge: Id, sid: Id, now: int) returns (error: Option<RoomError>)
      requires Valid(State())
      modifies this
      ensures Valid(State()) && State() == Rules.PickWinner(old(State()), judge, sid, now).room
      ensures error == Rules.PickWinner(old(State()), judge, sid, now).error
    {
      hide Good, Table, Rules.Award, Rules.Persist;
      ghost var s := State();
      ReadyToChange(s);
      Rounds.PickWinnerKeeps(s, judge, sid, now);
      if phase != Judging {
        return Some(NotJudging);
      }
      if judge != judgeID {
        return Some(OnlyJudgePicks);
      }
      if sid !in submissions {
        return Some(SubmissionNotFound);
      }
      Award(sid, now);
      return None;
    }

    // --- timer callbacks ---

    method RandomSubmission() returns (id: Id)
      requires submissions != map[]
      ensures id in submissions
    {
      id :| id in submissions;
    }

    // The submission the judge's deadline fell on, if it got that far.
    method OnDeadline(seqNo: nat, now: int) returns (pick: Id)
      requires Valid(State()) && DeadlineTimer(seqNo) in outstanding
      modifies this
      ensures Valid(State()) && (old(phase) == Judging ==> pick in old(submissions))
      ensures State() == Rules.OnDeadline(Rules.Taken(old(State()), DeadlineTimer(seqNo)), seqNo, pick, now)
    {
      hide Good, Table, Rules.Award, Rules.BeginJudging, Rules.ScheduleComputerTurns, Rules.Persist;
      ghost var s := State();
      ReadyToChange(s);
      SomethingToJudge(s);
      pick := 0;
      if phase == Judging {
        pick := RandomSubmission();
      }
      Rounds.DeadlineKeeps(s, seqNo, pick, now);
      outstanding := outstanding - multiset{DeadlineTimer(seqNo)};
      if phaseSeq != seqNo {
        return;
      }
      match phase
      case Submitting =>
        JudgingKeepsOrder(State(), now);
        BeginJudging(now);
        ScheduleComputerTurns();
      case Judging =>
        AwardKeepsOrder(State(), pick, now);
        Award(pick, now);
        ScheduleComputerTurns();
      case _ =>
    }

    // The position in its hand of the card the computer picks.
    method SubmitComputerAnswer(player: Id, seqNo: nat, now: int) returns (card: nat)
      requires Valid(State()) && ComputerAnswer(player, seqNo) in outstanding
      modifies this
      ensures Rules.ComputerMayAnswer(old(State()), player, seqNo) ==> card < |old(players)[player].hand|
      ensures Valid(State())
      ensures State() == Rules.SubmitComputerAnswer(Rules.Taken(old(State()), ComputerAnswer(player, seqNo)), player, seqNo, card, now)
    {
      hide Good, Table, Rules.PlayCard, Rules.ScheduleComputerTurns, Rules.Persist, Rules.HasSubmission;
      ghost var s := State();
      ReadyToChange(s);
      card := 0;
      if player in players && players[player].hand != [] {
        card :| card < |players[player].hand|;
      }
      Rounds.ComputerAnswerKeeps(s, player, seqNo, card, now);
      outstanding := outstanding - multiset{ComputerAnswer(player, seqNo)};
      var submitted := HasSubmission(player);
      if phaseSeq != seqNo || phase != Submitting || player !in players || !players[player].isComputer
         || player == judgeID || submitted || players[player].hand == [] {
        return;
      }
      ghost var t := State();
      var cardId := players[player].hand[card].id;
      PlayedSeats(t, player, cardId, now);
      var error := PlayCard(player, cardId, now);
      if error.Some? {
        Rounds.ComputerCardAccepted(t, player, card, now);
        return;
      }
      ScheduleComputerTurns();
      ScheduledSeats(Rules.PlayCard(t, player, cardId, now).room);
      Touch(now);
    }

    method PickComputerWinner(player: Id, seqNo: nat, now: int) returns (pick: Id)
      requires Valid(State()) && ComputerVerdict(player, seqNo) in outstanding
      modifies this
      ensures Rules.ComputerMayJudge(old(State()), player, seqNo) ==> pick in old(submissions)
      ensures Valid(State())
      ensures State() == Rules.PickComputerWinner(Rules.Taken(old(State()), ComputerVerdict(player, seqNo)), player, seqNo, pick, now)
    {
      hide Good, Table, Rules.Award, Rules.Persist;
      ghost var s := State();
      ReadyToChange(s);
      pick := 0;
      if submissions != map[] {
        pick := RandomSubmission();
      }
      Rounds.ComputerVerdictKeeps(s, player, seqNo, pick, now);
      outstanding := outstanding - multiset{ComputerVerdict(player, seqNo)};
      if phaseSeq != seqNo || phase != Judging || judgeID != player || player !in players
         || !players[player].isComputer || |submissions| == 0 {
        return;
      }
      AwardKeepsOrder(State(), pick, now);
      Award(pick, now);
      Touch(now);
    }

    // --- snapshots ---

    method SnapshotFor(viewer: Id) returns (v: RoomSnapshot)
      requires Rules.Seated(State()) && Keyed(submissions)
      ensures IsSnapshot(State(), viewer, v)
    {
      var submittedBy := Submitters(submissions);
      var people: seq<PlayerView> := [];
      var i := 0;
      while i < |order|
        invariant i <= |order| && |people| == i
        invariant forall j :: 0 <= j < i ==>
                    people[j] == View(players[order[j]], Rules.HasSubmission(submissions, order[j]), viewer, order[j])
      {
        people := people + [View(players[order[i]], order[i] in submittedBy, viewer, order[i])];
        i := i + 1;
      }
      var table := RedactAll(submissions, phase);
      v := RoomSnapshot(code, phase, roundNumber, prompt, hostID, judgeID, scoreLimit, submitSecs, maxPlayers,
                        contentTier, phaseDeadline, people, table, createdAt, updatedAt);
    }

    // Every open socket gets a snapshot made for the player it belongs to.
    method Broadcast() returns (sent: map<Id, RoomSnapshot>)
      requires Rules.Seated(State()) && Keyed(submissions)
      ensures forall id :: id in clients ==> forall conn :: conn in clients[id] ==> conn in sent
      ensures forall conn :: conn in sent ==>
                exists id :: id in clients && conn in clients[id] && IsSnapshot(State(), id, sent[conn])
    {
      hide IsSnapshot;
      sent := map[];
      var left := clients.Keys;
      while left != {}
        invariant left <= clients.Keys
        invariant forall id :: id in clients && id !in left ==> forall conn :: conn in clients[id] ==> conn in sent
        invariant forall conn :: conn in sent ==>
                    exists id :: id in clients && conn in clients[id] && IsSnapshot(State(), id, sent[conn])
        decreases |left|
      {
        var id :| id in left;
        var v := SnapshotFor(id);
        sent := sent + map conn | conn in clients[id] :: v;
        left := left - {id};
      }
    }
  }

  // RestoreRoom: every check, then the room.
  method Restore(p: PersistedRoomState, deck: Deck, e: Entropy, now: int) returns (r: Result<Room, RestoreError>)
    ensures r.Success? ==> fresh(r.value) && RoomRestore.Restore(p, deck, e, now) == Success(r.value.State())
    ensures r.Failure? ==> RoomRestore.Restore(p, deck, e, now) == Failure(r.error)
  {
    hide Rebuilt, RestorePlayers, RestoreSubmissions, NormalCode;
    if p.schemaVersion != ROOM_STATE_VERSION {
      return Failure(UnsupportedVersion);
    }
    if NormalCode(p.code) == "" {
      return Failure(NoCode);
    }
    var people := LoadPlayers(p.players);
    if people.Failure? {
      return Failure(people.error);
    }
    if |p.order| != |people.value|
       || |p.order| > Rules.ClampInt(p.maxPlayers, MIN_PLAYERS_TO_START, MAX_PLAYERS_CEILING, DEFAULT_MAX_PLAYERS) {
      return Failure(InvalidOrder);
    }
    var i := 0;
    while i < |p.order|
      invariant i <= |p.order| && forall j :: 0 <= j < i ==> p.order[j] in people.value
    {
      if p.order[i] !in people.value {
        return Failure(UnknownPlayer);
      }
      i := i + 1;
    }
    if p.hostID != 0 && p.hostID !in people.value {
      return Failure(UnknownHost);
    }
    if p.judgeID != 0 && p.judgeID !in people.value {
      return Failure(UnknownJudge);
    }
    var table := LoadSubmissions(p.submissions, people.value);
    if table.Failure? {
      return Failure(table.error);
    }
    var room := new Room.Load(p, people.value, table.value, deck, e, now);
    return Success(room);
  }
}
