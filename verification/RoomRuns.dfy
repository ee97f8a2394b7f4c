// Whole runs of a room: any clients, any timers, in any order.
module RoomRuns {
  import opened Wrappers
  import opened Sequences
  import opened Cards
  import opened RoomTypes
  import opened RoomRules
  import opened RoomInvariant
  import opened RoomPreservation
  import opened RoundPreservation

  datatype Command =
    | JoinCmd(name: string)
    | UndoJoinCmd(player: Id)
    | LeaveCmd(player: Id)
    | AttachCmd(player: Id, token: Id, conn: Id)
    | DetachCmd(player: Id, conn: Id)
    | StartGameCmd(caller: Id)
    | StartComputerGameCmd(caller: Id)
    | SubmitAnswerCmd(player: Id, answerId: string)
    | PickWinnerCmd(judge: Id, sid: Id)
    | NextRoundCmd(caller: Id)
    | EndGameCmd(caller: Id)
    | SkipPromptCmd(caller: Id)
    | PlayAgainCmd(caller: Id, visit: seq<Id>)
    | UpdateSettingsCmd(caller: Id, settings: Option<Settings>)
    | DeadlineFires(seqNo: nat, pick: Id)
    | ComputerAnswers(player: Id, seqNo: nat, card: nat)
    | ComputerJudges(player: Id, seqNo: nat, pick: Id)

  datatype Event = Event(now: int, command: Command)

  // The choices in a command are ones the program could make: the callback that
  // fires is outstanding, a random pick falls on something there, map iteration
  // meets every player once. Callers have a non-empty id, as the handler sees to.
  ghost predicate CanStep(s: RoomState, c: Command) {
    match c
    case StartComputerGameCmd(caller) => caller != 0
    case PlayAgainCmd(_, visit) => Distinct(visit) && forall id :: id in visit <==> id in s.players
    case DeadlineFires(seqNo, pick) =>
      DeadlineTimer(seqNo) in s.outstanding && (s.phase == Judging ==> pick in s.submissions)
    case ComputerAnswers(player, seqNo, card) =>
      ComputerAnswer(player, seqNo) in s.outstanding
      && (ComputerMayAnswer(s, player, seqNo) ==> card < |s.players[player].hand|)
    case ComputerJudges(player, seqNo, pick) =>
      ComputerVerdict(player, seqNo) in s.outstanding
      && (ComputerMayJudge(s, player, seqNo) ==> pick in s.submissions)
    case _ => true
  }

  lemma ValidFacts(s: RoomState)
    requires Valid(s)
    ensures s.deck.Playable() && Seated(s) && Distinct(s.order)
    ensures s.fullDeck.For(Party).Playable() && s.fullDeck.For(Family).Playable()
    ensures s.phase == Scoring ==> s.order != []
  {
    CoreFacts(s);
  }

  ghost function Step(s: RoomState, e: Event): Outcome
    requires Valid(s) && CanStep(s, e.command)
  {
    hide Good;
    ValidFacts(s);
    match e.command
    case JoinCmd(name) => TryJoin(s, name, e.now)
    case UndoJoinCmd(player) => Outcome(UndoJoin(s, player, e.now), None)
    case LeaveCmd(player) => Leave(s, player, e.now)
    case AttachCmd(player, token, conn) => Attach(s, player, token, conn, e.now)
    case DetachCmd(player, conn) => Outcome(Detach(s, player, conn, e.now), None)
    case StartGameCmd(caller) => StartGame(s, caller, e.now)
    case StartComputerGameCmd(caller) => StartComputerGame(s, caller, e.now)
    case SubmitAnswerCmd(player, answerId) => SubmitAnswer(s, player, answerId, e.now)
    case PickWinnerCmd(judge, sid) => PickWinner(s, judge, sid, e.now)
    case NextRoundCmd(caller) => NextRound(s, caller, e.now)
    case EndGameCmd(caller) => EndGame(s, caller, e.now)
    case SkipPromptCmd(caller) => SkipPrompt(s, caller, e.now)
    case PlayAgainCmd(caller, visit) => PlayAgain(s, caller, visit, e.now)
    case UpdateSettingsCmd(caller, settings) => UpdateSettings(s, caller, settings, e.now)
    case DeadlineFires(seqNo, pick) =>
      Outcome(OnDeadline(Taken(s, DeadlineTimer(seqNo)), seqNo, pick, e.now), None)
    case ComputerAnswers(player, seqNo, card) =>
      Outcome(SubmitComputerAnswer(Taken(s, ComputerAnswer(player, seqNo)), player, seqNo, card, e.now), None)
    case ComputerJudges(player, seqNo, pick) =>
      Outcome(PickComputerWinner(Taken(s, ComputerVerdict(player, seqNo)), player, seqNo, pick, e.now), None)
  }

  lemma StepKeeps(s: RoomState, e: Event)
    requires Valid(s) && CanStep(s, e.command)
    ensures Valid(Step(s, e).room)
  {
    hide Core, Stage, Persist, AddPlayer, Leave, Attach, Detach, StartGame, StartComputerGame, SubmitAnswer, PickWinner;
    hide NextRound, EndGame, SkipPrompt, PlayAgain, UpdateSettings, OnDeadline, SubmitComputerAnswer, PickComputerWinner, UndoJoin;
    ValidFacts(s);
    match e.command {
      case JoinCmd(name) =>
        if TryJoin(s, name, e.now).error.None? {
          AddPlayerKeeps(s, name, false, e.now);
        }
      case UndoJoinCmd(player) => UndoJoinKeeps(s, player, e.now);
      case LeaveCmd(player) =>
        if player in s.players {
          LeaveKeeps(s, player, e.now);
        } else {
          NobodyLeaves(s, player, e.now);
        }
      case AttachCmd(player, token, conn) => AttachKeeps(s, player, token, conn, e.now);
      case DetachCmd(player, conn) => DetachKeeps(s, player, conn, e.now);
      case StartGameCmd(caller) => StartGameKeeps(s, caller, e.now);
      case StartComputerGameCmd(caller) => StartComputerGameKeeps(s, caller, e.now);
      case SubmitAnswerCmd(player, answerId) => SubmitAnswerKeeps(s, player, answerId, e.now);
      case PickWinnerCmd(judge, sid) => PickWinnerKeeps(s, judge, sid, e.now);
      case NextRoundCmd(caller) => NextRoundKeeps(s, caller, e.now);
      case EndGameCmd(caller) => EndGameKeeps(s, caller, e.now);
      case SkipPromptCmd(caller) => SkipPromptKeeps(s, caller, e.now);
      case PlayAgainCmd(caller, visit) => PlayAgainKeeps(s, caller, visit, e.now);
      case UpdateSettingsCmd(caller, settings) => UpdateSettingsKeeps(s, caller, settings, e.now);
      case DeadlineFires(seqNo, pick) => DeadlineKeeps(s, seqNo, pick, e.now);
      case ComputerAnswers(player, seqNo, card) => ComputerAnswerKeeps(s, player, seqNo, card, e.now);
      case ComputerJudges(player, seqNo, pick) => ComputerVerdictKeeps(s, player, seqNo, pick, e.now);
    }
  }

  lemma NobodyLeaves(s: RoomState, player: Id, now: int)
    requires Valid(s) && player !in s.players
    ensures Leave(s, player, now).room == s
  {
    hide Good;
  }

  // A run: each event is one the room could meet where it then stands.
  ghost predicate Run(s: RoomState, es: seq<Event>)
    requires Valid(s)
    decreases |es|
  {
    es == [] || (CanStep(s, es[0].command) && Run(After(s, es[0]), es[1..]))
  }

  ghost function After(s: RoomState, e: Event): (t: RoomState)
    requires Valid(s) && CanStep(s, e.command)
    ensures Valid(t)
  {
    StepKeeps(s, e);
    Step(s, e).room
  }

  // Where a run ends. Every room on the way is valid.
  ghost function End(s: RoomState, es: seq<Event>): (t: RoomState)
    requires Valid(s) && Run(s, es)
    ensures Valid(t)
    decreases |es|
  {
    if es == [] then s else End(After(s, es[0]), es[1..])
  }
}
