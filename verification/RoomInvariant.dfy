// What is true of a room between any two commands.
module RoomInvariant {
  import opened Wrappers
  import opened Sequences
  import opened Cards
  import opened RoomTypes
  import opened RoomRules

  // Seats: the order lists every player once; ids are never reused.
  ghost predicate Roster(players: map<Id, Player>, order: seq<Id>, nextId: Id)
    ensures Roster(players, order, nextId) ==> forall id :: id in order ==> id in players
  {
    (forall id :: id in order ==> id in Elements(order))
    && Distinct(order) && Elements(order) == players.Keys && 0 < nextId
    && forall id :: id in players ==> players[id].id == id && 0 < id < nextId && players[id].token != 0
  }

  ghost predicate Limits(scoreLimit: int, submitSecs: int, maxPlayers: int, seats: nat) {
    MIN_SCORE_LIMIT <= scoreLimit <= MAX_SCORE_LIMIT
    && MIN_SUBMIT_SECS <= submitSecs <= MAX_SUBMIT_SECS
    && MIN_PLAYERS_TO_START <= maxPlayers <= MAX_PLAYERS_CEILING
    && seats <= maxPlayers
  }

  ghost predicate DeckOk(fullDeck: Deck, deck: Deck, tier: Tier) {
    deck == fullDeck.For(tier) && fullDeck.For(Party).Playable() && fullDeck.For(Family).Playable()
  }

  // Every submission has a seated author, and no author has two.
  ghost predicate Table(players: map<Id, Player>, subs: map<Id, Submission>, nextId: Id) {
    (forall k :: k in subs ==> subs[k].id == k && 0 < k < nextId && subs[k].playerId in players)
    && OneEach(subs)
  }

  // No author has two submissions.
  ghost predicate OneEach(subs: map<Id, Submission>) {
    forall j, k :: j in subs && k in subs && j != k ==> subs[j].playerId != subs[k].playerId
  }

  // The judge flag marks the judge and nobody else. A judge who has left keeps
  // the name judgeID, which no later player can take.
  ghost predicate JudgeFlags(players: map<Id, Player>, judgeID: Id, nextId: Id) {
    judgeID < nextId && forall id :: id in players ==> (players[id].isJudge <==> id == judgeID)
  }

  ghost predicate JudgeSeated(order: seq<Id>, judgeIndex: int, judgeID: Id, subs: map<Id, Submission>) {
    |order| >= MIN_PLAYERS_TO_START && 0 <= judgeIndex < |order| && judgeID == order[judgeIndex]
    && !HasSubmission(subs, judgeID)
    && forall k :: k in subs ==> !subs[k].isWinner
  }

  ghost predicate RoundShape(phase: Phase, order: seq<Id>, judgeIndex: int, judgeID: Id,
                             subs: map<Id, Submission>, prompt: Option<PromptCard>) {
    match phase
    case Lobby => subs == map[] && judgeID == 0 && prompt.None? && judgeIndex >= 0
    case Submitting => JudgeSeated(order, judgeIndex, judgeID, subs) && prompt.Some? && |subs| < |order| - 1
    case Judging => JudgeSeated(order, judgeIndex, judgeID, subs) && prompt.Some? && |subs| > 0
    case Scoring => |order| >= MIN_PLAYERS_TO_START && 0 <= judgeIndex < |order| && prompt.Some?
    case Finished => (if order == [] then judgeIndex == 0 else 0 <= judgeIndex < |order|) && prompt.Some?
  }

  // Nobody is at the limit before the game is over, and then at most one is.
  ghost predicate Scores(phase: Phase, players: map<Id, Player>, limit: int) {
    match phase
    case Lobby => forall id :: id in players ==> players[id].score == 0
    case Finished =>
      (forall id :: id in players ==> players[id].score <= limit)
      && forall a, b :: a in players && b in players && players[a].score == limit && players[b].score == limit ==> a == b
    case _ => forall id :: id in players ==> players[id].score < limit
  }

  // A player's hand and the card they have on the table make seven.
  ghost predicate SevenCards(players: map<Id, Player>, subs: map<Id, Submission>) {
    forall id :: id in players ==> |players[id].hand| + (if HasSubmission(subs, id) then 1 else 0) == HAND_SIZE
  }

  // Sockets belong to seated, connected players; the host is a seated human, and
  // a room without a host has no connected human in it.
  ghost predicate Connections(players: map<Id, Player>, clients: map<Id, set<Id>>, hostID: Id) {
    (forall id :: id in clients ==> id in players && players[id].connected && clients[id] != {})
    && (forall id :: id in players && players[id].connected && !players[id].isComputer ==> id in clients)
    && (hostID != 0 ==> hostID in players && !players[hostID].isComputer)
    && (hostID == 0 ==> forall id :: id in players ==> players[id].isComputer || !players[id].connected)
  }

  // A callback of the current sequence number was armed for the current phase,
  // and a timed phase always has its deadline callback on the way.
  ghost predicate Timers(phase: Phase, phaseSeq: nat, deadline: Option<int>, timer: Option<nat>, outstanding: multiset<Callback>) {
    (forall c :: c in outstanding ==> c.seqNo <= phaseSeq)
    && (forall c :: c in outstanding && c.seqNo == phaseSeq ==>
          match c
          case DeadlineTimer(_) => phase == Submitting || phase == Judging
          case ComputerAnswer(_, _) => phase == Submitting
          case ComputerVerdict(_, _) => phase == Judging)
    && (if phase == Submitting || phase == Judging
        then deadline.Some? && (timer.Some? ==> timer == Some(phaseSeq)) && DeadlineTimer(phaseSeq) in outstanding
        else deadline.None? && timer.None?)
    && (phase != Lobby ==> phaseSeq >= 1)
  }

  // Every computer the round is waiting for has its turn on the way.
  ghost predicate ComputersDue(phase: Phase, phaseSeq: nat, judgeID: Id, players: map<Id, Player>,
                               subs: map<Id, Submission>, outstanding: multiset<Callback>) {
    (phase == Submitting ==>
       forall id :: id in players && players[id].isComputer && id != judgeID && !HasSubmission(subs, id)
         ==> ComputerAnswer(id, phaseSeq) in outstanding)
    && (phase == Judging && judgeID in players && players[judgeID].isComputer ==>
          ComputerVerdict(judgeID, phaseSeq) in outstanding)
  }

  // What holds of the people and cards whatever the phase ...
  ghost predicate Core(s: RoomState) {
    Roster(s.players, s.order, s.entropy.nextId)
    && Limits(s.scoreLimit, s.submitSecs, s.maxPlayers, |s.order|)
    && DeckOk(s.fullDeck, s.deck, s.contentTier)
    && JudgeFlags(s.players, s.judgeID, s.entropy.nextId)
    && Connections(s.players, s.clients, s.hostID)
    && Table(s.players, s.submissions, s.entropy.nextId)
    && SevenCards(s.players, s.submissions)
  }

  // ... and what the phase demands.
  ghost predicate Stage(s: RoomState) {
    RoundShape(s.phase, s.order, s.judgeIndex, s.judgeID, s.submissions, s.prompt)
    && Scores(s.phase, s.players, s.scoreLimit)
    && Timers(s.phase, s.phaseSeq, s.phaseDeadline, s.timer, s.outstanding)
    && ComputersDue(s.phase, s.phaseSeq, s.judgeID, s.players, s.submissions, s.outstanding)
  }

  ghost predicate Good(s: RoomState) {
    Core(s) && Stage(s)
  }

  // What the observer has been told is how the room now is. A room that has just
  // been opened or brought back has not told it anything.
  ghost predicate Valid(s: RoomState)
    ensures Valid(s) ==> Seated(s) && Distinct(s.order)
  {
    Good(s) && (s.published.Some? ==> s.published == Some(Persist(s)))
  }

  lemma ValidIsGood(s: RoomState)
    requires Valid(s)
    ensures Good(s)
  {
  }
}
