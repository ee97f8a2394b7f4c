// The data of a live room (backend/internal/realtime/types.go, room.go, state.go).
module RoomTypes {
  import opened Wrappers
  import opened Cards

  // Player, submission and connection ids and guest tokens. 0 is the empty string.
  type Id = nat

  const HAND_SIZE := 7
  const MAX_NAME_LEN := 40
  const JUDGE_SECONDS := 45
  const DEFAULT_SCORE_LIMIT := 5
  const DEFAULT_SUBMIT_SECS := 90
  const DEFAULT_MAX_PLAYERS := 12
  const MIN_PLAYERS_TO_START := 3
  const MIN_SCORE_LIMIT := 1
  const MAX_SCORE_LIMIT := 20
  const MIN_SUBMIT_SECS := 15
  const MAX_SUBMIT_SECS := 300
  const MAX_PLAYERS_CEILING := 20
  const ROOM_STATE_VERSION := 1

  datatype Phase = Lobby | Submitting | Judging | Scoring | Finished

  datatype Player = Player(
    id: Id, name: string, token: Id, score: nat, connected: bool,
    isComputer: bool, isJudge: bool, hand: seq<AnswerCard>)

  datatype Submission = Submission(
    id: Id, playerId: Id, playerName: string, answer: AnswerCard,
    submittedAt: int, isWinner: bool)

  // A zero field means "keep"; an unrecognised tier is None.
  datatype Settings = Settings(scoreLimit: int, roundSeconds: int, maxPlayers: int, contentTier: Option<Tier>)

  // A function handed to time.AfterFunc, with the phase sequence it captured.
  datatype Callback =
    | DeadlineTimer(seqNo: nat)
    | ComputerAnswer(player: Id, seqNo: nat)
    | ComputerVerdict(player: Id, seqNo: nat)

  // What the process draws randomness from: unused ids, and the dice of each
  // shuffle still to come.
  datatype Entropy = Entropy(
    nextId: Id,
    answerDice: (nat, nat) -> nat, answerShuffles: nat,
    promptDice: (nat, nat) -> nat, promptShuffles: nat)

  datatype PersistedPlayer = PersistedPlayer(
    id: Id, name: string, token: Id, score: nat, isComputer: bool, isJudge: bool, hand: seq<AnswerCard>)

  datatype PersistedRoomState = PersistedRoomState(
    schemaVersion: int, revision: nat, code: string, phase: Phase, phaseSeq: nat,
    phaseDeadline: Option<int>, roundNumber: nat, prompt: Option<PromptCard>,
    hostID: Id, judgeID: Id, judgeIndex: int,
    scoreLimit: int, submitSecs: int, maxPlayers: int, contentTier: Tier,
    players: seq<PersistedPlayer>, order: seq<Id>, submissions: seq<Submission>,
    answerPile: seq<AnswerCard>, promptPile: seq<PromptCard>,
    createdAt: int, updatedAt: int)

  // The whole of a room. `outstanding` holds the timer callbacks the runtime has
  // accepted and not yet run; stopping a timer does not take one back, because a
  // stopped timer may already be on its way. `published` is the snapshot last
  // handed to the state observer.
  datatype RoomState = RoomState(
    code: string, fullDeck: Deck, deck: Deck,
    phase: Phase, phaseSeq: nat, phaseDeadline: Option<int>, timer: Option<nat>,
    roundNumber: nat, prompt: Option<PromptCard>,
    hostID: Id, judgeID: Id, judgeIndex: int,
    scoreLimit: int, submitSecs: int, maxPlayers: int, contentTier: Tier,
    players: map<Id, Player>, order: seq<Id>, submissions: map<Id, Submission>,
    answerPile: seq<AnswerCard>, promptPile: seq<PromptCard>,
    clients: map<Id, set<Id>>,
    createdAt: int, updatedAt: int, stateVersion: nat,
    published: Option<PersistedRoomState>,
    outstanding: multiset<Callback>, entropy: Entropy)

  datatype RoomError =
    | RoomFull | InvalidName | NotHost | NotFound | InvalidToken
    | GameInProgress | NeedPlayers | NotAccepting | JudgeDoesNotSubmit
    | AlreadySubmitted | CardNotInHand | NotJudging | OnlyJudgePicks | SubmissionNotFound
    | NotScoring | NoGame | CannotSkip | NotFinished | LobbyOnly | NoSettings

  // What a command leaves behind: the room, and an error or none.
  datatype Outcome = Outcome(room: RoomState, error: Option<RoomError>)
}
