// What each room command does, as functions of the room it is given
// (backend/internal/realtime/room.go). The methods of class Room are proved
// against these; what the game promises is proved about them.
//
// `now` is the clock reading of the call. Random picks and map iteration order
// are parameters.
module RoomRules {
  import opened Wrappers
  import opened Sequences
  import opened Cards
  import opened RoomTypes

  // Everyone in the seating order is a player of the room.
  predicate Seated(s: RoomState) {
    forall id :: id in s.order ==> id in s.players
  }

  // --- draw piles ---

  datatype Drawn = Drawn(hand: seq<AnswerCard>, pile: seq<AnswerCard>, shuffles: nat)

  function AnswerRoll(e: Entropy, shuffles: nat): Roll {
    (i: nat) => e.answerDice(shuffles, i)
  }

  function PromptRoll(e: Entropy, shuffles: nat): Roll {
    (i: nat) => e.promptDice(shuffles, i)
  }

  function AnswerShoe(deck: seq<AnswerCard>, e: Entropy, shuffles: nat): seq<AnswerCard> {
    Shuffled(deck, AnswerRoll(e, shuffles))
  }

  function PromptShoe(deck: seq<PromptCard>, e: Entropy, shuffles: nat): seq<PromptCard> {
    Shuffled(deck, PromptRoll(e, shuffles))
  }

  lemma ShoeNotEmpty(deck: Deck, e: Entropy, shuffles: nat)
    ensures deck.answers != [] ==> AnswerShoe(deck.answers, e, shuffles) != []
    ensures deck.prompts != [] ==> PromptShoe(deck.prompts, e, shuffles) != []
  {
    ShuffleIsPermutation(deck.answers, AnswerRoll(e, shuffles));
    ShuffleIsPermutation(deck.prompts, PromptRoll(e, shuffles));
  }

  // drawAnswers: n cards off the top, reshuffling the whole active deck
  // whenever the pile runs out.
  function DrawAnswers(pile: seq<AnswerCard>, deck: seq<AnswerCard>, e: Entropy, shuffles: nat, n: nat): Drawn
    requires deck != []
    decreases n
  {
    if n == 0 then Drawn([], pile, shuffles)
    else
      var full := if pile == [] then AnswerShoe(deck, e, shuffles) else pile;
      var used := if pile == [] then shuffles + 1 else shuffles;
      ShoeNotEmpty(Deck([], deck), e, shuffles);
      var rest := DrawAnswers(full[..|full| - 1], deck, e, used, n - 1);
      Drawn([full[|full| - 1]] + rest.hand, rest.pile, rest.shuffles)
  }

  function Deal(s: RoomState, n: nat): (d: Drawn)
    requires s.deck.answers != []
  {
    DrawAnswers(s.answerPile, s.deck.answers, s.entropy, s.entropy.answerShuffles, n)
  }

  function AfterDeal(s: RoomState, d: Drawn): RoomState {
    s.(answerPile := d.pile, entropy := s.entropy.(answerShuffles := d.shuffles))
  }

  function DrawPrompt(s: RoomState): RoomState
    requires s.deck.prompts != []
  {
    var full := if s.promptPile == [] then PromptShoe(s.deck.prompts, s.entropy, s.entropy.promptShuffles) else s.promptPile;
    var used := if s.promptPile == [] then s.entropy.promptShuffles + 1 else s.entropy.promptShuffles;
    ShoeNotEmpty(s.deck, s.entropy, s.entropy.promptShuffles);
    s.(prompt := Some(full[|full| - 1]), promptPile := full[..|full| - 1],
       entropy := s.entropy.(promptShuffles := used))
  }

  function RefillOne(s: RoomState, id: Id): RoomState
    requires s.deck.answers != [] && id in s.players
  {
    var p := s.players[id];
    if |p.hand| >= HAND_SIZE then s
    else
      var d := Deal(s, HAND_SIZE - |p.hand|);
      AfterDeal(s, d).(players := s.players[id := p.(hand := p.hand + d.hand)])
  }

  // refillHand for each id in turn.
  function RefillAll(s: RoomState, ids: seq<Id>): (r: RoomState)
    requires s.deck.answers != [] && forall id :: id in ids ==> id in s.players
    decreases |ids|
  {
    if ids == [] then s else RefillAll(RefillOne(s, ids[0]), ids[1..])
  }

  // --- bookkeeping ---

  function SubmissionKeysOf(subs: map<Id, Submission>, player: Id): set<Id> {
    set k | k in subs && subs[k].playerId == player
  }

  predicate HasSubmission(subs: map<Id, Submission>, player: Id) {
    exists k :: k in subs && subs[k].playerId == player
  }

  // The card a player has on the table.
  ghost function CardPlayed(subs: map<Id, Submission>, player: Id): AnswerCard
    requires HasSubmission(subs, player)
  {
    var k :| k in subs && subs[k].playerId == player;
    subs[k].answer
  }

  function PersistPlayer(p: Player): PersistedPlayer {
    PersistedPlayer(p.id, p.name, p.token, p.score, p.isComputer, p.isJudge, p.hand)
  }

  ghost function PersistPlayers(players: map<Id, Player>, order: seq<Id>): (r: seq<PersistedPlayer>)
    requires forall id :: id in order ==> id in players
    ensures |r| == |order|
    ensures forall i :: 0 <= i < |r| ==> r[i] == PersistPlayer(players[order[i]])
  {
    seq(|order|, i requires 0 <= i < |order| => PersistPlayer(players[order[i]]))
  }

  // The canonical order of submissions: by time, then by id.
  predicate Earlier(a: Submission, b: Submission) {
    a.submittedAt < b.submittedAt || (a.submittedAt == b.submittedAt && a.id < b.id)
  }

  ghost predicate IsFirst(subs: map<Id, Submission>, k: Id) {
    k in subs && forall j :: j in subs && j != k ==> Earlier(subs[k], subs[j])
  }

  // The result of sortedSubmissions: every submission once, earliest first.
  ghost function SortedSubmissions(subs: map<Id, Submission>): seq<Submission>
    decreases |subs|
  {
    if k :| IsFirst(subs, k) then [subs[k]] + SortedSubmissions(subs - {k}) else []
  }

  ghost function Persist(s: RoomState): PersistedRoomState
    requires Seated(s)
  {
    PersistedRoomState(
      ROOM_STATE_VERSION, s.stateVersion, s.code, s.phase, s.phaseSeq, s.phaseDeadline,
      s.roundNumber, s.prompt, s.hostID, s.judgeID, s.judgeIndex,
      s.scoreLimit, s.submitSecs, s.maxPlayers, s.contentTier,
      PersistPlayers(s.players, s.order), s.order, SortedSubmissions(s.submissions),
      s.answerPile, s.promptPile, s.createdAt, s.updatedAt)
  }

  // touch: a new revision, handed to the observer.
  ghost function Touch(s: RoomState, now: int): RoomState
    requires Seated(s)
  {
    var t := s.(updatedAt := now, stateVersion := s.stateVersion + 1);
    t.(published := Some(Persist(t)))
  }

  // The deadline of a timed phase and the callback that guards it.
  function Arm(s: RoomState, seconds: int, now: int): RoomState {
    if seconds > 0 then
      s.(phaseDeadline := Some(now + seconds), timer := Some(s.phaseSeq),
         outstanding := s.outstanding + multiset{DeadlineTimer(s.phaseSeq)})
    else s.(phaseDeadline := None, timer := None)
  }

  function SetPhase(s: RoomState, p: Phase, seconds: int, now: int): RoomState {
    Arm(s.(phase := p, phaseSeq := s.phaseSeq + 1), seconds, now)
  }

  // reassignHostLocked: the first seated human with a live connection.
  function FirstConnectedHuman(players: map<Id, Player>, order: seq<Id>): Id {
    if order == [] then 0
    else if order[0] in players && players[order[0]].connected && !players[order[0]].isComputer then order[0]
    else FirstConnectedHuman(players, order[1..])
  }

  function FirstHuman(players: map<Id, Player>, order: seq<Id>): Id {
    if order == [] then 0
    else if order[0] in players && !players[order[0]].isComputer then order[0]
    else FirstHuman(players, order[1..])
  }

  predicate OwesCard(id: Id, judgeID: Id, players: map<Id, Player>, subs: map<Id, Submission>) {
    id in players && players[id].isComputer && id != judgeID && !HasSubmission(subs, id) && players[id].hand != []
  }

  // One callback for each computer in the order that owes a card.
  function AnswersDue(phaseSeq: nat, judgeID: Id, order: seq<Id>, players: map<Id, Player>, subs: map<Id, Submission>): (r: seq<Callback>)
    ensures forall c :: c in r ==>
              c.ComputerAnswer? && c.seqNo == phaseSeq && c.player in order && OwesCard(c.player, judgeID, players, subs)
    ensures forall id :: id in order && OwesCard(id, judgeID, players, subs) ==> ComputerAnswer(id, phaseSeq) in r
  {
    if order == [] then []
    else
      var front, id := order[..|order| - 1], order[|order| - 1];
      AnswersDue(phaseSeq, judgeID, front, players, subs)
      + if OwesCard(id, judgeID, players, subs) then [ComputerAnswer(id, phaseSeq)] else []
  }

  // scheduleComputerTurnsLocked: the computers that owe a card get their turn, or a
  // computer judge with something to judge does.
  function ComputerTurns(phase: Phase, phaseSeq: nat, judgeID: Id, order: seq<Id>,
                         players: map<Id, Player>, subs: map<Id, Submission>): seq<Callback> {
    match phase
    case Submitting => AnswersDue(phaseSeq, judgeID, order, players, subs)
    case Judging =>
      if judgeID in players && players[judgeID].isComputer && |subs| > 0
      then [ComputerVerdict(judgeID, phaseSeq)] else []
    case _ => []
  }

  ghost function ScheduleComputerTurns(s: RoomState): RoomState {
    s.(outstanding := s.outstanding
       + multiset(ComputerTurns(s.phase, s.phaseSeq, s.judgeID, s.order, s.players, s.submissions)))
  }

  // --- joining and leaving ---

  predicate IsControl(c: char) {
    c < ' ' || '\U{7F}' <= c <= '\U{9F}'
  }

  predicate ValidPlayerName(name: string) {
    forall i :: 0 <= i < |name| ==> !IsControl(name[i])
  }

  function ClampName(name: string): string {
    if |name| > MAX_NAME_LEN then name[..MAX_NAME_LEN] else name
  }

  ghost function AddPlayer(s: RoomState, name: string, isComputer: bool, now: int): RoomState
    requires s.deck.answers != [] && Seated(s)
  {
    var pid := s.entropy.nextId;
    var clean := if ClampName(name) == "" then "Guest" else ClampName(name);
    var d := Deal(s, HAND_SIZE);
    var p := Player(pid, clean, pid + 1, 0, isComputer, isComputer, false, d.hand);
    var t := AfterDeal(s, d);
    Touch(t.(players := t.players[pid := p], order := t.order + [pid],
             hostID := if t.hostID == 0 then pid else t.hostID,
             entropy := t.entropy.(nextId := pid + 2)), now)
  }

  ghost function TryJoin(s: RoomState, name: string, now: int): Outcome
    requires s.deck.answers != [] && Seated(s)
  {
    if !ValidPlayerName(name) then Outcome(s, Some(InvalidName))
    else if |s.order| >= s.maxPlayers then Outcome(s, Some(RoomFull))
    else Outcome(AddPlayer(s, name, false, now), None)
  }

  ghost function UndoJoin(s: RoomState, player: Id, now: int): RoomState
    requires Seated(s)
    requires Distinct(s.order)
  {
    if player !in s.players || s.players[player].connected || s.phase != Lobby then s
    else
      WithoutKeeps(s.order, player);
      var t := s.(answerPile := s.answerPile + s.players[player].hand,
                  players := s.players - {player}, order := Without(s.order, player));
      Touch(if t.hostID == player then t.(hostID := FirstConnectedHuman(t.players, t.order)) else t, now)
  }

  // The judge cursor is a position in the order, so it steps back when a seat at
  // or before it disappears, and wraps.
  function CursorAfter(order: seq<Id>, judgeIndex: int, player: Id): int {
    var index := IndexOf(order, player);
    var cursor := if index < |order| && index <= judgeIndex then judgeIndex - 1 else judgeIndex;
    var rest := Without(order, player);
    if |rest| > 0 then cursor % |rest| else 0
  }

  // removePlayerLocked: everything the player held goes back into the pile.
  ghost function RemovePlayer(s: RoomState, player: Id): RoomState
    requires player in s.players
  {
    var live := if HasSubmission(s.submissions, player) then [CardPlayed(s.submissions, player)] else [];
    var order := Without(s.order, player);
    var players := s.players - {player};
    var fallback := FirstConnectedHuman(players, order);
    s.(answerPile := s.answerPile + s.players[player].hand + live,
       submissions := s.submissions - SubmissionKeysOf(s.submissions, player),
       players := players, order := order, clients := s.clients - {player},
       judgeIndex := CursorAfter(s.order, s.judgeIndex, player),
       hostID := if s.hostID != player then s.hostID
                 else if fallback != 0 then fallback else FirstHuman(players, order))
  }

  function AllAnswerersSubmitted(s: RoomState): bool {
    |s.order| - 1 > 0 && |s.submissions| >= |s.order| - 1
  }

  ghost function BeginJudging(s: RoomState, now: int): RoomState
    requires Seated(s)
  {
    if |s.submissions| == 0 then Touch(SetPhase(s, Scoring, 0, now), now)
    else Touch(SetPhase(s, Judging, JUDGE_SECONDS, now), now)
  }

  ghost function TakeBack(p: Player, subs: map<Id, Submission>, id: Id): Player {
    if HasSubmission(subs, id) then p.(hand := p.hand + [CardPlayed(subs, id)]) else p
  }

  // Every card on the table goes back to the hand it came from.
  ghost function ReturnCards(s: RoomState): RoomState {
    s.(players := map id | id in s.players :: TakeBack(s.players[id], s.submissions, id), submissions := map[])
  }

  function ClearJudge(s: RoomState): RoomState {
    s.(players := map id | id in s.players ::
         if id in s.order then s.players[id].(isJudge := false) else s.players[id],
       judgeID := 0)
  }

  ghost function ApplyRosterLoss(s: RoomState, wasJudge: bool, now: int): RoomState
    requires Seated(s)
  {
    if s.phase == Lobby || s.phase == Finished then s
    else if |s.order| < MIN_PLAYERS_TO_START then SetPhase(s, Finished, 0, now)
    else if wasJudge then SetPhase(ClearJudge(ReturnCards(s)), Scoring, 0, now)
    else if s.phase == Submitting && AllAnswerersSubmitted(s) then ScheduleComputerTurns(BeginJudging(s, now))
    else if s.phase == Judging && |s.submissions| == 0 then SetPhase(s, Scoring, 0, now)
    else s
  }

  lemma RemovalSeats(s: RoomState, player: Id)
    requires player in s.players && Seated(s) && Distinct(s.order)
    ensures Seated(RemovePlayer(s, player))
  {
    hide FirstConnectedHuman, FirstHuman, CursorAfter, Without, CardPlayed, HasSubmission;
    WithoutKeeps(s.order, player);
  }

  lemma LossSeats(s: RoomState, wasJudge: bool, now: int)
    requires Seated(s)
    ensures Seated(ApplyRosterLoss(s, wasJudge, now))
  {
    hide Persist, TakeBack, ComputerTurns;
  }

  ghost function Leave(s: RoomState, player: Id, now: int): Outcome
    requires Seated(s)
    requires Distinct(s.order)
  {
    hide RemovePlayer, ApplyRosterLoss;
    if player !in s.players then Outcome(s, Some(NotFound))
    else
      var wasJudge := s.players[player].isJudge && (s.phase == Submitting || s.phase == Judging);
      RemovalSeats(s, player);
      LossSeats(RemovePlayer(s, player), wasJudge, now);
      Outcome(Touch(ApplyRosterLoss(RemovePlayer(s, player), wasJudge, now), now), None)
  }

  // --- connections ---

  predicate ValidGuestToken(expected: Id, got: Id) {
    expected != 0 && got != 0 && expected == got
  }

  ghost function Attach(s: RoomState, player: Id, token: Id, conn: Id, now: int): Outcome
    requires Seated(s)
  {
    if player !in s.players then Outcome(s, Some(NotFound))
    else if !ValidGuestToken(s.players[player].token, token) then Outcome(s, Some(InvalidToken))
    else
      var t := s.(players := s.players[player := s.players[player].(connected := true)]);
      var host := if t.hostID !in t.players || !t.players[t.hostID].connected
                  then FirstConnectedHuman(t.players, t.order) else t.hostID;
      var conns := if player in t.clients then t.clients[player] else {};
      Outcome(Touch(t.(hostID := host, clients := t.clients[player := conns + {conn}]), now), None)
  }

  ghost function Detach(s: RoomState, player: Id, conn: Id, now: int): RoomState
    requires Seated(s)
  {
    if player !in s.clients then Touch(s, now)
    else if s.clients[player] - {conn} != {} then
      Touch(s.(clients := s.clients[player := s.clients[player] - {conn}]), now)
    else
      var players := if player in s.players
                     then s.players[player := s.players[player].(connected := false)] else s.players;
      var host := if player == s.hostID then FirstConnectedHuman(players, s.order) else s.hostID;
      Touch(s.(clients := s.clients - {player}, players := players, hostID := host), now)
  }

  // --- rounds ---

  function MarkJudge(players: map<Id, Player>, order: seq<Id>, judge: Id): map<Id, Player> {
    map id | id in players :: if id in order then players[id].(isJudge := id == judge) else players[id]
  }

  ghost function BeginRound(s: RoomState, now: int): (r: RoomState)
    requires s.deck.Playable() && s.order != [] && s.judgeIndex >= 0
    requires Seated(s)
  {
    var judge := s.order[s.judgeIndex % |s.order|];
    var t := DrawPrompt(s.(roundNumber := s.roundNumber + 1, submissions := map[]));
    var u := RefillAll(t.(judgeID := judge, players := MarkJudge(t.players, t.order, judge)), t.order);
    RefillAllFrame(t.(judgeID := judge, players := MarkJudge(t.players, t.order, judge)), t.order);
    Touch(SetPhase(u, Submitting, u.submitSecs, now), now)
  }

  // Refilling touches hands, the pile and the shuffle count, nothing else.
  lemma {:induction false} RefillAllFrame(s: RoomState, ids: seq<Id>)
    requires s.deck.answers != [] && forall id :: id in ids ==> id in s.players
    ensures var r := RefillAll(s, ids);
            r == s.(players := r.players, answerPile := r.answerPile, entropy := r.entropy)
            && r.entropy == s.entropy.(answerShuffles := r.entropy.answerShuffles)
    ensures RefillAll(s, ids).players.Keys == s.players.Keys
    ensures forall id :: id in s.players ==>
              RefillAll(s, ids).players[id] == s.players[id].(hand := RefillAll(s, ids).players[id].hand)
    decreases |ids|
  {
    if ids != [] {
      RefillAllFrame(RefillOne(s, ids[0]), ids[1..]);
    }
  }

  ghost function StartGame(s: RoomState, caller: Id, now: int): Outcome
    requires s.deck.Playable() && Seated(s)
  {
    if caller != s.hostID then Outcome(s, Some(NotHost))
    else if s.phase != Lobby then Outcome(s, Some(GameInProgress))
    else if |s.order| < MIN_PLAYERS_TO_START then Outcome(s, Some(NeedPlayers))
    else Outcome(ScheduleComputerTurns(BeginRound(s.(judgeIndex := 0), now)), None)
  }

  const COMPUTER_NAMES := ["Mira CPU", "Dex CPU", "Nova CPU", "Jules CPU", "Remy CPU", "Kit CPU"]

  function FirstUnused(names: seq<string>, used: set<string>): string {
    if names == [] then "CPU Guest" else if names[0] !in used then names[0] else FirstUnused(names[1..], used)
  }

  function NextComputerName(used: set<string>): string {
    FirstUnused(COMPUTER_NAMES, used)
  }

  function NamesInUse(s: RoomState): set<string> {
    set id | id in s.order && id in s.players :: s.players[id].name
  }

  function FirstComputerIndex(players: map<Id, Player>, order: seq<Id>, from: nat): nat
    requires from <= |order|
    decreases |order| - from
  {
    if from == |order| then 0
    else if order[from] in players && players[order[from]].isComputer then from
    else FirstComputerIndex(players, order, from + 1)
  }

  // Computers take seats until the room can start; the room may be full first.
  ghost function SeatComputers(s: RoomState, now: int): Outcome
    requires s.deck.Playable() && Seated(s)
    decreases MIN_PLAYERS_TO_START - |s.order|
  {
    if |s.order| >= MIN_PLAYERS_TO_START then Outcome(s, None)
    else if |s.order| >= s.maxPlayers then Outcome(s, Some(RoomFull))
    else SeatComputers(AddPlayer(s, NextComputerName(NamesInUse(s)), true, now), now)
  }

  ghost function StartComputerGame(s: RoomState, caller: Id, now: int): Outcome
    requires s.deck.Playable() && Seated(s)
  {
    if caller != s.hostID then Outcome(s, Some(NotHost))
    else if s.phase != Lobby then Outcome(s, Some(GameInProgress))
    else
      var seated := SeatComputers(s, now);
      SeatComputersFrame(s, now);
      if seated.error.Some? then seated
      else
        var t := seated.room;
        Outcome(ScheduleComputerTurns(BeginRound(t.(judgeIndex := FirstComputerIndex(t.players, t.order, 0)), now)), None)
  }

  lemma {:induction false} SeatComputersFrame(s: RoomState, now: int)
    requires s.deck.Playable() && Seated(s)
    ensures var r := SeatComputers(s, now);
            r.room.deck == s.deck && Seated(r.room)
            && (r.error.None? ==> |r.room.order| >= MIN_PLAYERS_TO_START)
    decreases MIN_PLAYERS_TO_START - |s.order|
  {
    if |s.order| < MIN_PLAYERS_TO_START && |s.order| < s.maxPlayers {
      SeatComputersFrame(AddPlayer(s, NextComputerName(NamesInUse(s)), true, now), now);
    }
  }

  ghost function NextRound(s: RoomState, caller: Id, now: int): Outcome
    requires s.deck.Playable() && Seated(s)
    requires s.phase == Scoring ==> s.order != []
  {
    if caller != s.hostID then Outcome(s, Some(NotHost))
    else if s.phase != Scoring then Outcome(s, Some(NotScoring))
    else
      Outcome(ScheduleComputerTurns(BeginRound(s.(judgeIndex := (s.judgeIndex + 1) % |s.order|), now)), None)
  }

  ghost function EndGame(s: RoomState, caller: Id, now: int): Outcome
    requires Seated(s)
  {
    if caller != s.hostID then Outcome(s, Some(NotHost))
    else if s.phase == Lobby then Outcome(s, Some(NoGame))
    else Outcome(Touch(SetPhase(s, Finished, 0, now), now), None)
  }

  ghost function SkipPrompt(s: RoomState, caller: Id, now: int): Outcome
    requires s.deck.Playable() && Seated(s)
  {
    if caller != s.hostID then Outcome(s, Some(NotHost))
    else if s.phase != Submitting then Outcome(s, Some(CannotSkip))
    else
      var t := DrawPrompt(ReturnCards(s));
      Outcome(Touch(ScheduleComputerTurns(SetPhase(t, Submitting, t.submitSecs, now)), now), None)
  }

  function ResetPlayer(p: Player): Player {
    p.(score := 0, isJudge := false)
  }

  // `visit` is the order in which the range loop meets the players.
  ghost function PlayAgain(s: RoomState, caller: Id, visit: seq<Id>, now: int): Outcome
    requires s.deck.Playable() && Seated(s)
    requires forall id :: id in visit ==> id in s.players
  {
    if caller != s.hostID then Outcome(s, Some(NotHost))
    else if s.phase != Finished then Outcome(s, Some(NotFinished))
    else
      var t := s.(roundNumber := 0, judgeIndex := 0, judgeID := 0, prompt := None, submissions := map[],
                  players := map id | id in s.players :: ResetPlayer(s.players[id]));
      RefillAllFrame(t, visit);
      Outcome(Touch(SetPhase(RefillAll(t, visit), Lobby, 0, now), now), None)
  }

  function ClampInt(v: int, lo: int, hi: int, fallback: int): int {
    if v == 0 then fallback else if v < lo then lo else if v > hi then hi else v
  }

  // Every lobby hand is replaced by a fresh one from the new tier.
  function RedealAll(s: RoomState, ids: seq<Id>): RoomState
    requires s.deck.answers != [] && forall id :: id in ids ==> id in s.players
    decreases |ids|
  {
    if ids == [] then s
    else
      var d := Deal(s, HAND_SIZE);
      RedealAll(AfterDeal(s, d).(players := s.players[ids[0] := s.players[ids[0]].(hand := d.hand)]), ids[1..])
  }

  lemma {:induction false} RedealAllFrame(s: RoomState, ids: seq<Id>)
    requires s.deck.answers != [] && forall id :: id in ids ==> id in s.players
    ensures var r := RedealAll(s, ids);
            r == s.(players := r.players, answerPile := r.answerPile, entropy := r.entropy)
            && r.entropy == s.entropy.(answerShuffles := r.entropy.answerShuffles)
    ensures RedealAll(s, ids).players.Keys == s.players.Keys
    ensures forall id :: id in s.players ==>
              RedealAll(s, ids).players[id] == s.players[id].(hand := RedealAll(s, ids).players[id].hand)
    decreases |ids|
  {
    if ids != [] {
      var d := Deal(s, HAND_SIZE);
      RedealAllFrame(AfterDeal(s, d).(players := s.players[ids[0] := s.players[ids[0]].(hand := d.hand)]), ids[1..]);
    }
  }

  // Both piles start over from a freshly shuffled deck.
  function FreshPiles(s: RoomState): RoomState {
    s.(answerPile := AnswerShoe(s.deck.answers, s.entropy, s.entropy.answerShuffles),
       promptPile := PromptShoe(s.deck.prompts, s.entropy, s.entropy.promptShuffles),
       entropy := s.entropy.(answerShuffles := s.entropy.answerShuffles + 1,
                             promptShuffles := s.entropy.promptShuffles + 1))
  }

  function ChangeTier(s: RoomState, tier: Tier): RoomState
    requires s.fullDeck.For(tier).Playable() && Seated(s)
  {
    RedealAll(FreshPiles(s.(contentTier := tier, deck := s.fullDeck.For(tier))), s.order)
  }

  ghost function UpdateSettings(s: RoomState, caller: Id, settings: Option<Settings>, now: int): Outcome
    requires s.fullDeck.For(Party).Playable() && s.fullDeck.For(Family).Playable()
    requires Seated(s)
  {
    if caller != s.hostID then Outcome(s, Some(NotHost))
    else if s.phase != Lobby then Outcome(s, Some(LobbyOnly))
    else if settings.None? then Outcome(s, Some(NoSettings))
    else
      var v := settings.value;
      var floor := if |s.order| < MIN_PLAYERS_TO_START then MIN_PLAYERS_TO_START else |s.order|;
      var t := s.(scoreLimit := ClampInt(v.scoreLimit, MIN_SCORE_LIMIT, MAX_SCORE_LIMIT, s.scoreLimit),
                  submitSecs := ClampInt(v.roundSeconds, MIN_SUBMIT_SECS, MAX_SUBMIT_SECS, s.submitSecs),
                  maxPlayers := ClampInt(v.maxPlayers, floor, MAX_PLAYERS_CEILING, s.maxPlayers));
      if v.contentTier.Some? && v.contentTier.value != s.contentTier then
        RedealAllFrame(FreshPiles(t.(contentTier := v.contentTier.value, deck := t.fullDeck.For(v.contentTier.value))), t.order);
        Outcome(Touch(ChangeTier(t, v.contentTier.value), now), None)
      else Outcome(Touch(t, now), None)
  }

  // --- answers and verdicts ---

  function CardIndex(hand: seq<AnswerCard>, answerId: string): (i: nat)
    ensures i <= |hand|
    ensures i < |hand| ==> hand[i].id == answerId
    ensures forall j :: 0 <= j < i ==> hand[j].id != answerId
  {
    if hand == [] || hand[0].id == answerId then 0 else 1 + CardIndex(hand[1..], answerId)
  }

  ghost function PlayCard(s: RoomState, player: Id, answerId: string, now: int): Outcome
    requires Seated(s)
  {
    if s.phase != Submitting then Outcome(s, Some(NotAccepting))
    else if player == s.judgeID then Outcome(s, Some(JudgeDoesNotSubmit))
    else if player !in s.players then Outcome(s, Some(NotFound))
    else if HasSubmission(s.submissions, player) then Outcome(s, Some(AlreadySubmitted))
    else
      var p := s.players[player];
      var i := CardIndex(p.hand, answerId);
      if i == |p.hand| then Outcome(s, Some(CardNotInHand))
      else
        var sid := s.entropy.nextId;
        var t := s.(players := s.players[player := p.(hand := p.hand[..i] + p.hand[i + 1..])],
                    submissions := s.submissions[sid := Submission(sid, player, p.name, p.hand[i], now, false)],
                    entropy := s.entropy.(nextId := sid + 1));
        Outcome(if AllAnswerersSubmitted(t) then BeginJudging(t, now) else t, None)
  }

  ghost function SubmitAnswer(s: RoomState, player: Id, answerId: string, now: int): Outcome
    requires Seated(s)
  {
    var o := PlayCard(s, player, answerId, now);
    if o.error.Some? then o else Outcome(Touch(ScheduleComputerTurns(o.room), now), None)
  }

  ghost function Award(s: RoomState, sid: Id, now: int): RoomState
    requires sid in s.submissions && Seated(s)
  {
    var sub := s.submissions[sid];
    var t := s.(submissions := s.submissions[sid := sub.(isWinner := true)]);
    if sub.playerId in s.players then
      var p := s.players[sub.playerId];
      var u := t.(players := t.players[sub.playerId := p.(score := p.score + 1)]);
      Touch(SetPhase(u, if p.score + 1 >= s.scoreLimit then Finished else Scoring, 0, now), now)
    else Touch(SetPhase(t, Scoring, 0, now), now)
  }

  ghost function PickWinner(s: RoomState, judge: Id, sid: Id, now: int): Outcome
    requires Seated(s)
  {
    if s.phase != Judging then Outcome(s, Some(NotJudging))
    else if judge != s.judgeID then Outcome(s, Some(OnlyJudgePicks))
    else if sid !in s.submissions then Outcome(s, Some(SubmissionNotFound))
    else Outcome(Award(s, sid, now), None)
  }

  // --- timer callbacks; each has just been taken off `outstanding` ---

  function Taken(s: RoomState, c: Callback): RoomState {
    s.(outstanding := s.outstanding - multiset{c})
  }

  // `pick` is the submission the random choice falls on.
  ghost function OnDeadline(s: RoomState, seqNo: nat, pick: Id, now: int): RoomState
    requires s.phase == Judging ==> pick in s.submissions
    requires Seated(s)
  {
    if s.phaseSeq != seqNo then s
    else match s.phase
      case Submitting => ScheduleComputerTurns(BeginJudging(s, now))
      case Judging => ScheduleComputerTurns(Award(s, pick, now))
      case _ => s
  }

  predicate ComputerMayAnswer(s: RoomState, player: Id, seqNo: nat) {
    s.phaseSeq == seqNo && s.phase == Submitting && player in s.players && s.players[player].isComputer
    && player != s.judgeID && !HasSubmission(s.submissions, player) && s.players[player].hand != []
  }

  // `card` is the position in the hand the random choice falls on.
  ghost function SubmitComputerAnswer(s: RoomState, player: Id, seqNo: nat, card: nat, now: int): RoomState
    requires Seated(s)
    requires ComputerMayAnswer(s, player, seqNo) ==> card < |s.players[player].hand|
  {
    if !ComputerMayAnswer(s, player, seqNo) then s
    else
      var o := PlayCard(s, player, s.players[player].hand[card].id, now);
      if o.error.Some? then s else Touch(ScheduleComputerTurns(o.room), now)
  }

  predicate ComputerMayJudge(s: RoomState, player: Id, seqNo: nat) {
    s.phaseSeq == seqNo && s.phase == Judging && s.judgeID == player
    && player in s.players && s.players[player].isComputer && |s.submissions| > 0
  }

  ghost function PickComputerWinner(s: RoomState, player: Id, seqNo: nat, pick: Id, now: int): RoomState
    requires Seated(s)
    requires ComputerMayJudge(s, player, seqNo) ==> pick in s.submissions
  {
    if !ComputerMayJudge(s, player, seqNo) then s else Touch(Award(s, pick, now), now)
  }

  // --- a new room ---

  function NewRoom(code: string, deck: Deck, e: Entropy, now: int): RoomState {
    FreshPiles(RoomState(
      code, deck, deck.For(Party), Lobby, 0, None, None, 0, None, 0, 0, 0,
      DEFAULT_SCORE_LIMIT, DEFAULT_SUBMIT_SECS, DEFAULT_MAX_PLAYERS, Party,
      map[], [], map[], [], [], map[], now, now, 1, None, multiset{}, e))
  }

  // SetStateObserver followed by the first PersistRoom of CreateRoom: from here on the
  // observer holds the current snapshot.
  ghost function Observed(s: RoomState): RoomState
    requires Seated(s)
  {
    s.(published := Some(Persist(s)))
  }
}
