# Verification of the Punchline backend

Punchline is a party card game played in live rooms, with a slower daily game beside it. This project models the
parts of its Go backend in which mistakes are hard to see by reading one function, and proves what they promise.

- **The live room** (`backend/internal/realtime/room.go`). `Room.dfy` is the room as the program runs it: an object
  with the Go fields, changed step by step. Each of its methods is proved to do what the function of the same name in
  `RoomRules.dfy` says. `RoomInvariant.dfy` states what holds between any two commands, `RoomPreservation.dfy` and
  `RoundPreservation.dfy` prove that every command and every timer callback keeps it, and `RoomRuns.dfy` strings events
  into runs: any clients, any callbacks still outstanding, in any order, stale ones included. `PlayLaws.dfy`, `RoundLaws.dfy`
  and `SeatLaws.dfy` say of each command and callback, without the rules, when it is accepted and what is then different.
  On top of that stand the laws of whole runs: `CardConservation.dfy` and `CardLedger.dfy` (no card appears or vanishes),
  `PromptLedger.dfy` (no prompt is asked again before its time), `JudgeRotation.dfy`
  (the judge's turn goes round fairly whoever joins or leaves), `GameLength.dfy` (points and the end of the game),
  `RoomClock.dfy` (revisions, sequence numbers, stale timers), `RoomLaws.dfy` (no round stalls, seven cards each,
  refusals change nothing), `Snapshots.dfy` (what a player's snapshot shows and keeps secret), `SubmissionOrder.dfy` and
  `RoomRestore.dfy` (saving a room and bringing it back), `RoomLives.dfy` (the laws across restarts) and
  `RoomLosses.dfy` (a run that ends in a room no restart brings back).
- **Rooms across instances** (`backend/internal/realtime/manager.go`, `backend/internal/roomstore/postgres.go`).
  `RoomLeases.dfy` is the shared row of a room code with its lease and snapshot, `RoomTakeover.dfy` the recovery of a
  room by another instance with other instances running in between, `RoomHolders.dfy` who has the room in memory
  meanwhile, `SaveQueue.dfy` the background save queue, `RoomManager.dfy` the manager object, `MemoryRegistry.dfy` the
  stand-ins used without a database.
- **The WebSocket codec** (`backend/internal/ws/ws.go`, RFC 6455 sections 5.2 to 5.5). `WebSocketFrames.dfy` and
  `WebSocketMessages.dfy` relate the reader to the encodings a client may send; `WebSocketConn.dfy` is the connection.
- **Three smaller machines.** `RateLimiter.dfy` (`backend/internal/httpapi/ratelimit.go`); `DailyRounds.dfy`,
  `DailyRuns.dfy`, `DailyLaws.dfy`, `DailyService.dfy` and `CardCandidates.dfy` (`backend/internal/daily`, with the
  removal of answers in `backend/internal/content/service.go`); `CardTelemetry.dfy` (`backend/internal/telemetry/cards.go`).

Time is an integer, one instant per call. Random choices, map iteration order and the codes a generator will come up
with are parameters or arbitrary choices; new ids are unused ones. A lock-held method, a SQL statement and a
transaction are one step each; the two statements of a save, heartbeat or release that touched no row run together in
the store object, and apart in `RoomLeases.NilSave` and `RoomLeases.RefusedBeats`. A timer is a callback that has been
started and not yet run; stopping it does not take it back, so the proofs cover a callback that was already on its
way. Callers have a non-empty id, as the handlers see to, and decks hold at least one prompt and one answer at both
tiers, as the seed deck's validation sees to; `SetDeck` checks the whole deck only.

## What the code does not promise

- **A takeover can resume an older room.** `GetRoom` loads the snapshot before it claims the lease. If another instance
  claims, plays on, saves and lets go in between, the second claim succeeds, the save of the older snapshot is reported
  as done, and the older room is installed. The comment on `ClaimRoom` says it runs only after the snapshot has been
  loaded for recovery; it does not say that this order can lose play. `RoomTakeover.OlderSnapshotResumes` is such a run,
  `RoomTakeover.InstalledIsStored` and `RoomTakeover.StaleExactlyWhenOvertaken` say exactly when it happens, and
  `RoomTakeover.SavesGoNowhere` what follows.
- **A room whose judge has left cannot be restored.** `RestoreRoom` refuses a snapshot whose judge is not seated, and a
  judge who leaves after the reveal, or from a room that falls below three players, stays named in it.
  `RoomRestore.RoundTrip` gives the exact condition, `RoomRestore.DepartureStrandsRoom` the departures that cause it,
  `RoomLosses.RestartCanLoseRoom` a run from the opening of any room to one in play that a restart loses.
- **A snapshot can seat one player twice and another not at all.** `RestoreRoom` counts the seats and looks each up, but
  does not compare them: `RoomRestore.RepeatedSeatPasses`. `RoomRestore.RestoreAccepts` says exactly what is accepted,
  `RoomRestore.EveryoneIsSeated` when everyone restored has a seat. No room of ours saves such a snapshot.
- **One revision can stand for two persisted states.** A restore fills in what is missing without a new revision:
  `RoomRestore.RestoreIsStable` says exactly when it does.
- **Two instances can hold one room,** from the end of a lease whose heartbeat is late until that heartbeat.
  `RoomHolders.TwoHoldForAWhile` is such a run for every new room, `RoomHolders.SharedExactlyWhenLapsed` and
  `RoomHolders.BroughtBackExactlyWhen` say exactly when it can happen, `RoomHolders.AtMostOneHolder` and
  `RoomHolders.InTimeNobodyElse` when it cannot.
- **Cards played during the shutdown are not counted.** The recorder stops with the signal (`backend/cmd/api/main.go:49`),
  the rooms only after the drain grace: `CardTelemetry.LatePlayIsNotCounted` is such a run,
  `CardTelemetry.CountedAtShutdown` says exactly how many events are in no counter.
- **A save over a lapsed lease can be reported as done** when the same instance claims the code before the lookup that
  explains the miss: `RoomLeases.NilWithoutStoring`, with `RoomLeases.NilSave` for when it cannot.
- **Two snapshots name the author of a card** that no single one gives away: `Snapshots.TwoSnapshotsNameTheAuthor`.
- **A harvest that fails is not made up for,** and what was harvested stays in the queue when a moderator removes the
  answer: `DailyRuns.HarvestedOnce` and `DailyRuns.HarvestIsTheTally` are exact about both.
- **One lost lease stops the shutdown flush.** `RoomManagers.RoomManager.FlushPendingRoomStates` empties the queue
  exactly when every room in it is still leased to the instance.
- **A short window can reset a longer one.** For all windows of which one is more than three times the other,
  `RateLimiter.ForgetfulDiffers` is a run in which pruning lets a key through that has used up its limit;
  `RateLimiter.PruningShowsExactly` says that there is none otherwise. Both callers today pass one minute
  (`backend/internal/httpapi/handler.go:342` and `:413`), so none of their decisions changes.
- **The in-memory registry answers a release differently** when an expired entry is still there:
  `MemoryRegistry.Registry.ReleaseRoom`; in nothing else, on no run: `MemoryRegistry.RunsAgree`.

## Model

| member | source | states |
|---|---|---|
| `RoomRuns.StepKeeps` | backend/internal/realtime/room.go:298-1003 | Every command and every timer callback, fresh or stale, takes a valid room, just opened or just restored or in play, to a valid room: one seat per player, hands and submissions in order, judge and cursor fitting the phase, host a seated human, sockets of connected players only, scores below the limit until the game is over, the deadline and each computer's turn on their way, and whatever the observer has been told up to date. |
| `RoomRestore.RestoredRoomIsValid` | backend/internal/realtime/room.go:161-286 | A saved room whose judge is seated or unset is accepted, and restored and resumed it is valid again, so commands and runs go on from it: its deadline is armed and its computers have their turns, whatever deck the new process has. Its observer has been told nothing until the first change. |
| `RoundPreservation.NewRoomValid` | backend/internal/realtime/room.go:120-141 | A new room, observed, satisfies all of them, so every room on every run from creation does. |
| `RoundLaws.NewRoomLaw` | backend/internal/realtime/room.go:120-141 | A new room is an empty lobby of the party tier with the default settings, and its piles are the whole deck, shuffled. |
| `PlayLaws.SubmitAnswerLaw` | backend/internal/realtime/room.go:613-662 | In every valid room: a card is accepted exactly when answers are open, the player is seated, is not the judge, has none on the table and holds a card of that id; then the first card of that id, and only it, leaves that hand and lies on the table under a new id in the player's name, every other hand and submission is as before, and judging begins exactly when nobody owes a card any more. |
| `PlayLaws.ComputerAnswerLaw` | backend/internal/realtime/room.go:974-990 | A computer's turn plays a card of the id its choice falls on, likewise, exactly when the turn is still its own, and changes nothing otherwise. |
| `PlayLaws.PickWinnerLaw` | backend/internal/realtime/room.go:664-679 | A round is awarded exactly by the judge, while judging, to a submission on the table; then that submission is marked, its author has one point more, the game is over exactly if that reaches the limit, and nothing else differs. |
| `PlayLaws.ComputerVerdictLaw` | backend/internal/realtime/room.go:992-1003 | A computer judge's turn awards the submission its choice falls on, likewise, exactly when the turn is still its own. |
| `PlayLaws.DeadlineLaw` | backend/internal/realtime/room.go:928-947 | A deadline of an earlier sequence number changes nothing; one of the current number closes the answers, to judging if there are any and to scoring if not, or awards the submission the choice falls on. |
| `RoundLaws.StartGameLaw` | backend/internal/realtime/room.go:560-577 | Only the host starts a game, exactly from a lobby of three or more; the first seat judges, the top prompt is out and off the pile, everyone has seven cards, the answers' time runs, and nothing else differs. |
| `RoundLaws.StartComputerGameLaw` | backend/internal/realtime/room.go:582-611 | The host of a lobby always gets a game: computers with names apart fill the seats up to three, the people there keep theirs, and the first computer in the order judges. |
| `RoundLaws.RoundBegins` | backend/internal/realtime/room.go:844-858 | A round begun with the cursor at any seat has the player there as judge, the top prompt out and off the pile, an empty table, seven cards in every hand, the old ones first, and the answers' time running; nothing else of the room is touched. |
| `RoundLaws.NextRoundLaw` | backend/internal/realtime/room.go:682-696 | Only the host begins the next round, exactly from scoring; the next seat judges, the table is empty, the top prompt is out and off the pile, hands are filled up, and nothing else differs. |
| `RoundLaws.SkipPromptLaw` | backend/internal/realtime/room.go:717-741 | Only the host skips, exactly while answers are open; the cards on the table are back in the hands they came from, the next prompt is out and off the pile, the time runs anew; judge, round and scores stay. |
| `RoundLaws.EndGameLaw` | backend/internal/realtime/room.go:699-712 | Only the host ends a game, in any phase but the lobby, and scores, hands and table stay. |
| `RoundLaws.PlayAgainLaw` | backend/internal/realtime/room.go:744-767 | Only the host starts over, exactly from a finished game: the lobby, the same people in their seats, no points, no round, seven cards each. |
| `RoundLaws.UpdateSettingsLaw` | backend/internal/realtime/room.go:780-816 | Only the host changes settings, exactly in the lobby: each number asked for is taken or moved to the nearest allowed one, zero keeps, no limit falls below the seats taken, and cards move exactly when the tier changes, all of them then from the new tier's deck. |
| `SeatLaws.JoinLaw` | backend/internal/realtime/room.go:298-318 | A name without control characters and a free seat are exactly what a join takes, in any phase; the newcomer sits last with a fresh id, a token, seven cards and no points, is host if there is none, and nobody else is touched. |
| `SeatLaws.UndoJoinLaw` | backend/internal/realtime/room.go:325-349 | A seat is taken back exactly in the lobby and from somebody not connected; the hand returns to the pile and a host who goes is followed by the first connected person. |
| `SeatLaws.AttachLaw` | backend/internal/realtime/room.go:505-526 | A connection opens exactly with the seated player's own token; the player is then connected, and a host who is neither connected nor this player is followed by the first connected person. |
| `SeatLaws.DetachLaw` | backend/internal/realtime/room.go:528-547 | Exactly the last connection to go disconnects a player; a host who goes offline is followed by the first connected person. |
| `SeatLaws.LeaveLaw` | backend/internal/realtime/room.go:355-465 | Exactly a seated player can leave; seat, cards and connections go, and the round is over for want of players, void for want of a judge with every card back in its hand, closed or scored when only the leaver's card was missing or there, and goes on otherwise. |
| `CardLedger.CardsAreConserved` | backend/internal/realtime/room.go:1027-1037 | Along every run - joins, leaves, voided rounds, skips, undone joins, timeouts - pile, hands, live submissions and the cards swept off the table at a new round or game add up, as a multiset, to one active deck per shuffle since the tier was chosen. |
| `CardLedger.NewRoomBalanced` | backend/internal/realtime/room.go:137-139 | The account balances for a new room with nothing discarded and one shuffle made. |
| `CardLedger.StepCards` | backend/internal/realtime/room.go:298-858 | What each single event does to the account, including the two that discard and the tier change that starts it afresh. |
| `CardLedger.NoCardTwice` | backend/internal/realtime/room.go:1027-1037 | While one shuffle has been made and the deck has no duplicate of it, a card is in at most one place: the pile, one player's hand or that player's submission. |
| `CardConservation.DrawConserves` | backend/internal/realtime/room.go:1027-1037 | Drawing any number of cards, reshuffling whenever the pile runs out, moves cards from pile to hand and adds exactly one deck for each shuffle. |
| `CardConservation.LeaveCards` | backend/internal/realtime/room.go:355-465 | A departure, with the round voided or not, loses and duplicates no card. |
| `PromptLedger.PromptsAreConserved` | backend/internal/realtime/room.go:1039-1046 | Along every run the pile and the prompts asked add up, as a multiset, to one deck per shuffle since the tier was chosen. |
| `PromptLedger.StepPrompts` | backend/internal/realtime/room.go:1039-1046 | Every successful start, next round and skip takes exactly the top prompt off the pile, which is the one then out, shuffling first exactly when the pile is empty; a new tier starts the pile afresh; nothing else touches it. |
| `PromptLedger.NewRoomPrompts` | backend/internal/realtime/room.go:137-140 | The account settles for a new room with nothing asked and one shuffle made. |
| `PromptLedger.NoPromptTwice` | backend/internal/realtime/room.go:1039-1046 | While one shuffle has been made, a prompt that is in the deck once has been asked at most once, and what is on the pile has not been asked. |
| `PromptLedger.PromptsComeOnce` | backend/internal/realtime/room.go:1039-1046 | So on any run of any new room: until the prompts of a tier are shuffled again, none that is once in the deck is asked twice. |
| `JudgeRotation.RingAfterDeparture` | backend/internal/realtime/room.go:386-407 | Seen from the judge's cursor, the circle of players after a departure is the same circle with the leaver taken out, whoever leaves and wherever the cursor stood. |
| `JudgeRotation.RingAfterRotation` | backend/internal/realtime/room.go:692-692 | The next round's judge is the first of the circle and goes to its end. |
| `JudgeRotation.JudgesAlternate` | backend/internal/realtime/room.go:385-407 | Through any stretch of a game in which two players stay seated, whoever joins or leaves, the numbers of turns they have had as judge differ by what the circle says is due, never by more than one. |
| `JudgeRotation.EveryoneJudgesOnce` | backend/internal/realtime/room.go:682-696 | Between two consecutive turns of one judge, every other player seated throughout is judge exactly once. |
| `GameLength.AwardGoesToAnAnswerer` | backend/internal/realtime/room.go:873-889 | Each award raises exactly one seated player's score, by one, and that player is not the judge. |
| `GameLength.EveryAwardIsAPoint` | backend/internal/realtime/room.go:873-889 | Along a game nobody leaves, the points on the table grow by exactly the number of awards. |
| `GameLength.GameEnds` | backend/internal/realtime/room.go:880-887 | A game of n players with limit L that nobody leaves is finished once more than n(L-1) awards have been made. |
| `RoomLaws.CountingIsCoverage` | backend/internal/realtime/room.go:896-899 | The comparison of two counts in allAnswerersSubmitted holds exactly when every seated player but the judge has a submission. |
| `RoomLaws.NoStall` | backend/internal/realtime/room.go:626-662 | In every reachable room: while answers are open there are three players, one seated judge at the cursor and someone who still owes a card; while the judge decides there is something to judge and at most everyone else's cards; in both the deadline callback is on its way. |
| `RoomLaws.SevenCardLaw` | backend/internal/realtime/room.go:901-906 | In every reachable room, in every phase, each player's hand and live submissions number seven. |
| `RoomLaws.DeadlineMovesOn` | backend/internal/realtime/room.go:928-947 | A deadline that fires on time closes the answers, to judging or to scoring when there are none, or awards a submission that is really on the table. |
| `RoomLaws.RefusalChangesNothing` | backend/internal/realtime/room.go:582-602 | Every command that reports an error leaves the whole room as it was; a computer game never stops half-way, because there is always room for three. |
| `RoomClock.ClockOfARun` | backend/internal/realtime/room.go:910-924 | Along every run the sequence number and revision only grow; an equal sequence number means the same phase, deadline and judge, with every card of those still seated still down; an equal revision means the same persisted state. |
| `RoomClock.RevisionsAreFaithful` | backend/internal/realtime/room.go:1230-1236 | Along a run, two moments with one revision have one persisted state, and the observer always holds the room as it is, except that it has been told nothing while the room is still as it was opened or restored. |
| `RoomClock.DeadlineActsInItsPhase` | backend/internal/realtime/room.go:910-932 | Whatever happens between arming and firing, a deadline callback that changes anything does so in the phase it was armed for. |
| `RoomClock.DeadlineActsOnce` | backend/internal/realtime/room.go:928-934 | Having acted once, the deadline of a sequence number never acts again, however many callbacks carry it. |
| `RoomClock.ComputerPlaysOnce` | backend/internal/realtime/room.go:949-990 | However often a computer's turn was scheduled, after it has played it cannot play again under the same sequence number. |
| `RoomRestore.RoundTrip` | backend/internal/realtime/room.go:161-265 | Restoring the persisted state of any reachable room gives exactly that room with people disconnected, no timer, sequence number and revision at least one and empty piles reshuffled - or, exactly when its judge is named but gone, the error about the judge and no other. |
| `RoomRestore.RestoreAccepts` | backend/internal/realtime/room.go:161-265 | Any snapshot whatever is restored exactly when its version is 1, its code is not blank, players have distinct ids and a token each, there are as many seats as players and no more than allowed, each naming a player, host and judge are players or unset, and submissions have distinct ids and known authors. |
| `RoomRestore.RestoredAsSaved` | backend/internal/realtime/room.go:216-257 | Its players and submissions are then exactly those saved, people disconnected and computers connected. |
| `RoomRestore.EveryoneIsSeated` | backend/internal/realtime/room.go:234-242 | Everyone restored has a seat exactly when the saved order repeats nobody. |
| `RoomRestore.RepeatedSeatPasses` | backend/internal/realtime/room.go:234-242 | Every acceptable snapshot of two or more seats stays acceptable when one seat is given to the player of another. |
| `RoomRestore.NormalTwice` | backend/internal/realtime/manager.go:204-205 | A code normalized twice is normalized once, so the code asked for and the code restored can be compared. |
| `RoomRestore.RestoreIsStable` | backend/internal/realtime/room.go:1187-1228 | A restore keeps the revision (or makes it one), and persisting the restored room writes back what was read exactly when nothing had to be filled in: the sequence number 0 of a first lobby, a revision of 0, a time not set, an empty pile. Otherwise one revision stands for two persisted states until the next change. |
| `RoomRestore.DepartureStrandsRoom` | backend/internal/realtime/room.go:363-465 | After a departure the room is one a restore refuses exactly when it was before, or the judge left after the reveal or left too few behind. |
| `RoomRestore.RestartLosesRoom` | backend/internal/realtime/room.go:246-248 | In every reachable room between rounds with more than three players, the judge leaving makes a room that plays on and cannot be restored. |
| `RoomLosses.RestartCanLoseRoom` | backend/internal/realtime/room.go:246-248 | In every newly opened room this run is possible, by the clock: four join, the host starts, nobody plays a card until the deadline is due, the judge leaves. The room goes on with three players and no process can restore it, then or later. |
| `RoomLives.ClockOfALife` | backend/internal/realtime/room.go:161-286 | Through any restarts the sequence number and the revision only grow, and one sequence number stands for one phase with its deadline and judge, with every card of those still seated still down. |
| `RoomLives.JudgesAlternateThroughRestarts` | backend/internal/realtime/room.go:161-286 | Through any restarts, joins and leaves, the turns as judge of two players who stay seated differ by what the circle says is due, never by more than one. |
| `RoomLives.EveryoneJudgesOnceThroughRestarts` | backend/internal/realtime/room.go:161-286 | Between two consecutive turns of one judge, with restarts in between or not, everyone seated throughout judges exactly once. |
| `RoomLives.CardsSurviveRestarts` | backend/internal/realtime/room.go:161-286 | Through any events and restarts, whatever deck each new process has, pile, hands, table and discards still add up to one deck per shuffle, each of the process that made it, the shuffle of a pile found empty included. |
| `RoomLives.PromptsSurviveRestarts` | backend/internal/realtime/room.go:161-286 | Through any events and restarts the pile and the prompts asked add up to one deck per shuffle, each of the process that made it. |
| `RoomLives.NewRoomSettles` | backend/internal/realtime/room.go:137-139 | That account is settled for a new room, with nothing inherited and nothing discarded. |
| `RoomLives.PointsSurviveRestarts` | backend/internal/realtime/room.go:161-286 | The points on the table grow by exactly the number of awards, restarts or not, while nobody leaves. |
| `RoomLives.GameEndsThroughRestarts` | backend/internal/realtime/room.go:161-286 | However often it is restarted, a game of n players with limit L that nobody leaves is finished once more than n(L-1) awards have been made. |
| `SubmissionOrder.SortedLists` | backend/internal/realtime/state.go:146-158 | The sorted submissions are strictly ordered by time and id and list every submission once. |
| `SubmissionOrder.OrderedIsCanonical` | backend/internal/realtime/state.go:146-158 | There is only one such list, so the persisted order does not depend on map iteration. |
| `SubmissionOrder.Sort` | backend/internal/realtime/state.go:146-158 | Collecting in any order and sorting gives that list. |
| `Snapshots.SnapshotsKeepSecrets` | backend/internal/realtime/room.go:1082-1138 | No single snapshot gives these away: while answers come in, two rooms that differ only in other players' hands, in what was played and by whom - or in tokens, piles, decks and timers - have the same snapshots for a viewer; while the judge decides, so do two rooms that differ in who played which card. |
| `Snapshots.WhatIsShown` | backend/internal/realtime/room.go:1082-1138 | In every valid room and for every viewer: each submission once, in order of time, with whether it won, its author and the author's name exactly outside answering and judging, its card exactly outside answering; every player in seat order with the name, score, connection, flags and submitted mark of the room, and no hand but the viewer's own; everything else as in the room. |
| `Snapshots.TwoSnapshotsNameTheAuthor` | backend/internal/realtime/room.go:1082-1112 | The snapshots before and after a card goes down differ in exactly one submission id and one submitted flag, so together they name its author. |
| `Snapshots.RedactAll` | backend/internal/realtime/room.go:1096-1113 | Redacting in any order and sorting gives one view of each submission in order of time. |
| `LiveRoom.Room.constructor` | backend/internal/realtime/room.go:120-141 | A new room is NewRoom of the rules, valid and observed. |
| `LiveRoom.Room.TryJoin` | backend/internal/realtime/room.go:298-318 | Joins as the rules say, with their errors, keeps the room valid, and returns a player who was not there before. |
| `LiveRoom.Room.UndoJoin` | backend/internal/realtime/room.go:325-349 | Takes the seat back as the rules say and keeps the room valid. |
| `LiveRoom.Room.Leave` | backend/internal/realtime/room.go:355-465 | Does and answers what the rules do, which is what `SeatLaws.LeaveLaw` says, and keeps the room valid. |
| `LiveRoom.Room.RemovePlayer` | backend/internal/realtime/room.go:373-423 | The loops over submissions and order put the player's cards back, drop the seat, step the cursor back and pass the host role on as the rules say. |
| `LiveRoom.Room.ApplyRosterLoss` | backend/internal/realtime/room.go:426-465 | The round after a departure: over, void, closed, or unchanged, as the rules say. |
| `LiveRoom.Room.Attach` | backend/internal/realtime/room.go:505-526 | Token check, socket and host as the rules say, and keeps the room valid. |
| `LiveRoom.Room.Detach` | backend/internal/realtime/room.go:528-547 | The last socket disconnects the player and passes the host role on, as the rules say, and keeps the room valid. |
| `LiveRoom.Room.StartGame` | backend/internal/realtime/room.go:560-577 | Starts the first round from the lobby as the rules say, with their errors. |
| `LiveRoom.Room.StartComputerGame` | backend/internal/realtime/room.go:582-611 | Seats computers until the room can start and makes one of them judge, as the rules say. |
| `LiveRoom.Room.BeginRound` | backend/internal/realtime/room.go:844-858 | Takes the top prompt off the pile, and the loop that marks the judge and refills each hand in turn does what marking and then refilling does; `RoundLaws.RoundBegins` says what that is. |
| `LiveRoom.Room.SubmitAnswer` | backend/internal/realtime/room.go:613-662 | Does and answers what the rules do, which is what `PlayLaws.SubmitAnswerLaw` says, and keeps the room valid. |
| `LiveRoom.Room.PickWinner` | backend/internal/realtime/room.go:664-679 | Does and answers what the rules do, which is what `PlayLaws.PickWinnerLaw` says, and keeps the room valid. |
| `LiveRoom.Room.NextRound` | backend/internal/realtime/room.go:682-696 | Does and answers what the rules do, which is what `RoundLaws.NextRoundLaw` says. |
| `LiveRoom.Room.EndGame` | backend/internal/realtime/room.go:699-712 | Ends the match as the rules say and keeps the room valid. |
| `LiveRoom.Room.SkipPrompt` | backend/internal/realtime/room.go:717-741 | Does and answers what the rules do, which is what `RoundLaws.SkipPromptLaw` says. |
| `LiveRoom.Room.PlayAgain` | backend/internal/realtime/room.go:744-767 | Resets every player once, in any order of the map, and returns to the lobby as the rules say. |
| `LiveRoom.Room.UpdateSettings` | backend/internal/realtime/room.go:780-816 | Clamps the settings and redeals on a new tier as the rules say, and keeps the room valid. |
| `LiveRoom.Room.OnDeadline` | backend/internal/realtime/room.go:928-947 | Acts as the rules say for some submission on the table, and keeps the room valid whenever it fires. |
| `LiveRoom.Room.SubmitComputerAnswer` | backend/internal/realtime/room.go:974-990 | Plays some card of the computer's hand as the rules say, or nothing, and keeps the room valid whenever it fires. |
| `LiveRoom.Room.PickComputerWinner` | backend/internal/realtime/room.go:992-1003 | Awards some submission on the table as the rules say, or nothing, and keeps the room valid whenever it fires. |
| `LiveRoom.Room.SnapshotFor` | backend/internal/realtime/room.go:1082-1138 | Builds a snapshot of the room for the viewer. |
| `LiveRoom.Room.Broadcast` | backend/internal/realtime/room.go:1056-1070 | Every open socket gets a snapshot made for a player it belongs to. |
| `LiveRoom.Restore` | backend/internal/realtime/room.go:161-265 | Every check in the order of the code, and the room the rules rebuild. |
| `LiveRoom.Room.Resume` | backend/internal/realtime/room.go:270-286 | Schedules the computers and arms the deadline, or lets it fire when it has passed, for every room a restore accepts. |
| `RoomLoops.Draw` | backend/internal/realtime/room.go:1027-1037 | The loop draws what the rules draw, shuffling anew whenever the pile is empty. |
| `RoomLoops.TakeCards` | backend/internal/realtime/room.go:379-384 | Ranging over the submissions in any order takes out exactly the player's card. |
| `RoomLoops.TurnsDue` | backend/internal/realtime/room.go:949-972 | The callbacks started are, seat by seat, those of the computers that owe a card, or of the computer judge. |
| `Cards.ShuffleIsPermutation` | backend/internal/cards/deck.go:96-109 | A shuffled pile holds every card of the deck as often as the deck does. |
| `Cards.TierFilter` | backend/internal/cards/deck.go:56-72 | A family deck has exactly the family cards, each as often as before; a party deck has everything. |
| `Cards.Shuffle` | backend/internal/cards/deck.go:96-109 | Shuffling a fresh copy in place is the shuffle of the rules and a permutation. |
| `RoomLeases.OwnerChanges` | backend/internal/roomstore/postgres.go:24-76 | The owner of a code changes exactly when someone else reserves or claims it after it expired, or the owner deletes it. |
| `RoomLeases.LeaseHolds` | backend/internal/roomstore/postgres.go:102-152 | Until its expiry, and whatever all other instances do, an owner that does not release or delete keeps the code. |
| `RoomLeases.Fenced` | backend/internal/roomstore/postgres.go:102-232 | A run of an instance that does not own the row and does not acquire it ends as if none of its calls had been made. |
| `RoomLeases.FencedIsTold` | backend/internal/roomstore/postgres.go:102-190 | Each save, heartbeat and release of such an instance is refused, with another owner named exactly when there is a live one. |
| `RoomLeases.SavedMeansStored` | backend/internal/roomstore/postgres.go:154-190 | With nothing between its two statements, a save reports success exactly to the holder of the live lease; the row then holds that revision or a later one, and that very snapshot exactly when nothing later was there. |
| `RoomLeases.NilSave` | backend/internal/roomstore/postgres.go:154-190 | With anything between the update and the lookup: success means the update stored the snapshot or the lookup found the lease its own; and unless the instance itself claimed the code in between, the row held that revision or a later one at the update. |
| `RoomLeases.NilWithoutStoring` | backend/internal/roomstore/postgres.go:171-189 | A save over a lapsed lease, followed by a claim of the same instance before the lookup, reports success and stores nothing. |
| `RoomLeases.RefusedBeats` | backend/internal/roomstore/postgres.go:102-152 | A heartbeat and a release are refused exactly when the lease was not the instance's own at the update, whatever runs before the lookup; the refusal names the instance itself only if it has claimed the code anew by then. |
| `RoomLeases.RevisionsGrow` | backend/internal/roomstore/postgres.go:154-190 | Between reserve, reset and delete the stored revision never decreases and a snapshot is never lost, however ownership moves. |
| `RoomLeases.StoredWasSaved` | backend/internal/roomstore/postgres.go:154-211 | What is stored at the end of any run was there before it or was saved during it. |
| `RoomLeases.WipesAreTheOwners` | backend/internal/roomstore/postgres.go:213-232 | Reset and delete take the snapshot exactly from the owner's row, live lease or not; a reset leaves the lease as it was. |
| `RoomLeases.AcknowledgedSurvives` | backend/internal/roomstore/postgres.go:154-190 | A snapshot whose save was acknowledged is still stored, or a later one is, until the row is wiped. |
| `RoomLeases.RoomStore.SaveRoomState` | backend/internal/roomstore/postgres.go:154-190 | The conditional update and the lookup that explains a miss give the row and reply of the rules and touch no other row; its two statements run with nothing in between, which is the subject of `RoomLeases.NilSave`. |
| `RoomLeases.RoomStore.ReserveRoom` | backend/internal/roomstore/postgres.go:24-49 | Gives the row and reply of the rules and touches no other row. |
| `RoomLeases.RoomStore.ClaimRoom` | backend/internal/roomstore/postgres.go:54-76 | Gives the row and reply of the rules and touches no other row. |
| `RoomLeases.RoomStore.HeartbeatRoom` | backend/internal/roomstore/postgres.go:102-127 | Gives the row and reply of the rules and touches no other row; its two statements run with nothing in between, which is the subject of `RoomLeases.RefusedBeats`. |
| `RoomLeases.RoomStore.ReleaseRoom` | backend/internal/roomstore/postgres.go:129-152 | Gives the row and reply of the rules and touches no other row; its two statements run with nothing in between, which is the subject of `RoomLeases.RefusedBeats`. |
| `RoomTakeover.InstalledIsStored` | backend/internal/realtime/manager.go:228-253 | After a takeover that reports no error, the room installed is the room stored exactly when, at its save, the row's version was no higher than the loaded revision. |
| `RoomTakeover.RowFrozen` | backend/internal/roomstore/postgres.go:102-190 | From a lookup that finds no live lease until someone claims, reserves, resets or deletes, nothing anyone does changes the row. |
| `RoomTakeover.TakeoverResumesNewest` | backend/internal/realtime/manager.go:216-253 | If nobody does that between the lookup and the claim, takeover installs the very snapshot stored last and leaves it stored under the new owner. |
| `RoomTakeover.TakeoverRevivesRoom` | backend/internal/realtime/manager.go:309-337 | Then a reachable room whose snapshot was stored comes back as that room. |
| `RoomTakeover.TakeoverAmidOwnRequests` | backend/internal/realtime/manager.go:216-253 | With other requests of the same instance in between, saving and renewing, takeover still succeeds under the same lease, and leaves stored what it loaded exactly when none of them saved a later revision, and a later one otherwise. |
| `RoomTakeover.OwnReleaseStopsTakeover` | backend/internal/realtime/manager.go:239-253 | If another request of the same instance gives the lease back before the save, the takeover fails, unless the instance claims the code yet again. |
| `RoomTakeover.StaleExactlyWhenOvertaken` | backend/internal/realtime/manager.go:228-253 | With any interleaving that wipes nothing, the installed room is out of date exactly when a later revision was stored after the load. |
| `RoomTakeover.OlderSnapshotResumes` | backend/internal/realtime/manager.go:228-253 | A run in which it is, with every step reporting success. |
| `RoomTakeover.SavesGoNowhere` | backend/internal/roomstore/postgres.go:154-190 | From then on the owner's saves below the stored version are each acknowledged and none is stored. |
| `SaveQueue.NothingLost` | backend/internal/realtime/manager.go:357-457 | Whatever saves fail or are refused and whoever else writes to the shared rows, every revision enqueued for a room is stored in its row, waiting or in hand, or a later one is, as long as the room is not taken from memory and its row not wiped; with nothing waiting and nobody writing the row has it. |
| `RoomManagers.RoomManager.PersistNext` | backend/internal/realtime/manager.go:377-405 | One round of the worker: saved and off the queue exactly when the lease is still held, otherwise back on the queue unless the room has gone. |
| `RoomManagers.RoomManager.FlushPendingRoomStates` | backend/internal/realtime/manager.go:417-432 | The flush saves what leaves the queue, and empties it exactly when every room in it is still owned. |
| `RoomManagers.RoomManager.HeartbeatLocalRooms` | backend/internal/realtime/manager.go:473-483 | Afterwards the instance holds exactly the rooms whose lease was its own, each leased for another term, and no snapshot of the others waits. |
| `RoomHolders.OneCurrentHolder` | backend/internal/realtime/manager.go:142-253 | In every run of CreateRoom and GetRoom calls, heartbeats, saves, releases and evictions of any instances on the shared row, step by step, at most one of those that hold the room has a lease it was told of and that is not over; another's heartbeat before the end of that term is refused and takes the room from it. |
| `RoomHolders.AtMostOneHolder` | backend/internal/realtime/manager.go:142-253 | As long as every instance that holds the room or puts it into memory is within the term it was last told of, no two ever hold it. |
| `RoomHolders.InTimeNobodyElse` | backend/cmd/api/main.go:32-38 | An instance whose heartbeats come before its term is over, and that does not give the room up, keeps room and lease, and no other instance that is not already past its own claim comes to hold the room. |
| `RoomHolders.SharedExactlyWhenLapsed` | backend/internal/realtime/manager.go:473-483 | When the owner that holds the room misses its heartbeat, another can come to hold it beside the owner by some instant, whatever anyone does, exactly when the lease is over by then. |
| `RoomHolders.BroughtBackExactlyWhen` | backend/internal/realtime/manager.go:204-253 | Beside a holder that owns the row, GetRoom calls of another instance can bring the room into memory a second time by some instant exactly when the lease is over by then and a snapshot is stored that can be restored. |
| `RoomHolders.LapsedIsShared` | backend/internal/realtime/manager.go:204-253 | From any state in which an instance holds the room, no lease on it is live and a snapshot is stored that can be restored, one GetRoom of another instance ends with both holding it. |
| `RoomHolders.TwoHoldForAWhile` | backend/internal/realtime/manager.go:142-253 | That happens for every new room and free code: one instance reserves, resets, opens and saves it and misses its heartbeat, another loads, claims, saves back and installs it at the end of the term, and both hold it until the first one's next heartbeat. |
| `RoomManagers.RoomManager.Shutdown` | backend/internal/realtime/manager.go:594-612 | No room stays here, none is still leased to this instance, every stored snapshot stays, and if no lease had been lost everything that waited is stored. |
| `RoomManagers.RoomManager.CreateRoom` | backend/internal/realtime/manager.go:142-202 | Succeeds exactly when the instance is not draining and has capacity, some code drawn is free here and in the store, and the first save is within the lease; the room is then new and valid under the first free code, leased to this instance with its first snapshot stored. Otherwise the error says which of these it was. No live row is touched but its own. |
| `RoomManagers.RoomManager.GetRoom` | backend/internal/realtime/manager.go:204-253 | Fails with draining exactly then; hands out the room that is here; otherwise answers as `RoomManagers.SearchOutcome` says. A room brought back is the stored snapshot restored and resumed, its lapsed row now owned by this instance until one term from now with that snapshot in it; a takeover that fails ends the lease at once, and no other row changes. |
| `RoomManagers.SearchOutcome` | backend/internal/realtime/manager.go:216-253 | A search in the store is refused with another owner's name exactly while that instance holds a live lease; with not found exactly when nobody does and nothing is stored; with state unavailable exactly when the lease is its own and nothing is stored; and succeeds exactly when no other instance has a live lease, there is capacity, and the stored snapshot can be restored. |
| `RoomManagers.RoomManager.InstallRestoredRoom` | backend/internal/realtime/manager.go:309-337 | Installs the restored room, or hands out the one already here, exactly when the snapshot can be restored under that code and, if it is not here, the instance is not draining and has capacity; otherwise says which of these failed. |
| `MemoryRegistry.Registry.ReserveRoom` | backend/internal/realtime/registry.go:77-104 | Answers as the database does for every row that agrees with the registry's record, and still agrees afterwards. |
| `MemoryRegistry.Registry.LookupRoom` | backend/internal/realtime/registry.go:106-128 | Answers as the database does; removing an expired record cannot be noticed. |
| `MemoryRegistry.Registry.HeartbeatRoom` | backend/internal/realtime/registry.go:130-152 | Answers as the database does and still agrees afterwards. |
| `MemoryRegistry.Registry.ReleaseRoom` | backend/internal/realtime/registry.go:154-174 | Ends the lease as the database does; its answer is the database's exactly when no expired record is there. |
| `MemoryRegistry.RunsAgree` | backend/internal/realtime/registry.go:77-174 | Through any sequence of calls with a clock that does not run back, every answer is the database's, except that of a release of an expired record. |
| `MemoryRegistry.StateStore.SaveRoomState` | backend/internal/realtime/state.go:77-93 | Stores the snapshot exactly when no later one is there; no revision decreases and no other room changes. |
| `WebSocketFrames.FrameRoundTrip` | backend/internal/ws/ws.go:245-304 | Reading any masked, minimally encoded client frame gives its opcode, fin flag and unmasked payload and consumes exactly that frame. |
| `WebSocketFrames.AcceptedIsCanonical` | backend/internal/ws/ws.go:245-304 | Everything the reader accepts is such an encoding: the frame, its mask and the consumed bytes determine each other. |
| `WebSocketFrames.FramesDelimitThemselves` | backend/internal/ws/ws.go:245-304 | No encoding of a frame is the beginning of another. |
| `WebSocketFrames.ServerFrameReads` | backend/internal/ws/ws.go:309-336 | Whatever the payload's length, a peer reads back the opcode, that length in its shortest form and exactly the payload; control payloads are cut at 125 bytes. |
| `WebSocketFrames.ValueBigEndian` | backend/internal/ws/ws.go:245-304 | The big-endian bytes of a length and its value determine each other. |
| `WebSocketMessages.MessageReassembled` | backend/internal/ws/ws.go:197-243 | However a message is fragmented and wherever pings and pongs come in between, it is read as exactly the concatenated payload, with the pings in order, when it has at most 8192 bytes, and refused as too large otherwise. |
| `WebSocketMessages.OnlyMessagesAccepted` | backend/internal/ws/ws.go:197-243 | Only such sequences of frames are read as a message. |
| `WebSocketConn.Conn.ReadFrame` | backend/internal/ws/ws.go:245-304 | Filling buffers and unmasking in place reads what the parser reads, leaves what it leaves and fails as it fails. |
| `WebSocketConn.Conn.ReadMessage` | backend/internal/ws/ws.go:197-243 | The loop terminates on every input and returns what the message parser returns, having queued a pong for each ping in order. |
| `WebSocketConn.Conn.WriteFrame` | backend/internal/ws/ws.go:309-336 | Appends exactly the frame's encoding to the output. |
| `WebSocketConn.Conn.Enqueue` | backend/internal/ws/ws.go:162-177 | Queues the frame, or closes the connection when 64 are waiting, or refuses when it is closed. |
| `WebSocketConn.PongsFit` | backend/internal/ws/ws.go:216-218 | Pongs that fit are all queued, in order, behind what is there. |
| `WebSocketConn.PongsOverflow` | backend/internal/ws/ws.go:162-177 | Too many pings close the connection with exactly 64 frames queued, the earliest. |
| `RateLimiter.PruningIsInvisible` | backend/internal/httpapi/ratelimit.go:42-76 | With a clock that does not run backwards and no window more than three times another (and one unit of time), the limiter decides every call as one that never forgets a key. |
| `RateLimiter.ShortWindowForgets` | backend/internal/httpapi/ratelimit.go:63-75 | When another key's call prunes, a key that has used up its limit within its window is let through again exactly when it has been idle for more than three of that call's windows. |
| `RateLimiter.ForgetfulDiffers` | backend/internal/httpapi/ratelimit.go:42-76 | For all longer windows w, a run of 257 calls from an empty limiter in which a key that has used up its limit gets through again. |
| `RateLimiter.PruningShowsExactly` | backend/internal/httpapi/ratelimit.go:42-76 | With windows from v to w, pruning changes no decision on any run exactly when w is at most 3v and one unit of time. |
| `RateLimiter.AtMostTwiceTheLimit` | backend/internal/httpapi/ratelimit.go:42-68 | Over any run, at most twice the largest limit of a key's calls get through in any closed interval as long as its window. |
| `RateLimiter.TwiceIsReached` | backend/internal/httpapi/ratelimit.go:42-68 | Whatever the limit, that bound is reached: a burst at the end of one window and one at the start of the next. |
| `RateLimiter.NoLimitNoTrace` | backend/internal/httpapi/ratelimit.go:42-45 | A call with a limit that is not positive goes through and is not counted. |
| `RateLimiter.RateLimiterState.Allow` | backend/internal/httpapi/ratelimit.go:42-68 | Decides and updates buckets and attempts as the limiter of the model does, pruning every 256th attempt. |
| `RateLimiter.RateLimiterState.Prune` | backend/internal/httpapi/ratelimit.go:70-76 | Removes exactly the idle keys. |
| `DailyRounds.AdvanceIsJoin` | backend/internal/daily/service.go:651-670 | advanceDue moves each round in its scope to the later of its state and what its deadlines say, changes nothing else, and owes a harvest exactly for the rounds that become final. |
| `DailyRounds.AdvancesCommute` | backend/internal/daily/service.go:651-670 | Two whole calls with any clocks and scopes have the same effect in either order, harvests included. |
| `DailyRounds.StatementsJoin` | backend/internal/daily/service.go:651-670 | However the statements of any number of calls interleave, each round ends where the set of statements puts it, nothing else about it changes, and each round made final is owed one harvest. |
| `DailyRounds.InterleavingsAgree` | backend/internal/daily/service.go:651-670 | Two interleavings of the same statements, each call's reveal before its finalize, leave the same store. |
| `DailyRounds.AdvanceIsIdempotent` | backend/internal/daily/service.go:651-670 | A second call in the same scope with a clock no later does nothing. |
| `DailyRuns.HarvestedOnce` | backend/internal/daily/promote.go:110-138 | In every run of workers, owners, players and moderators, statement by statement, a round is harvested at most once; while its group is there, exactly when it is final, no worker still owes the harvest and the harvest has not failed. |
| `DailyRuns.HarvestIsTheTally` | backend/internal/daily/promote.go:110-138 | A harvest takes the final answers and votes; afterwards the round is what was harvested less what moderators remove, and the same exactly when they remove none of it. |
| `DailyRuns.NoAnswerAfterVote` | backend/internal/daily/service.go:425-482 | Once a round has a vote it stays as long as its group, no answer is added or edited, its answers are those it had without the ones moderators remove, and every vote there ever is is for another member's answer that is still there. |
| `DailyRuns.RevealedRoundStays` | backend/internal/daily/service.go:335-341 | A revealed round stays exactly as long as its group; it is never moved or reopened, and its answers only lose the ones moderators remove. |
| `DailyRuns.RunSound` | backend/internal/daily/service.go:608-649 | Every run keeps one round per group and day with its own number, deadlines in order, moves rounds only forward, and lets a round that has gone with its group not come back. |
| `DailyLaws.SubmitLaw` | backend/internal/daily/service.go:401-444 | An answer is accepted exactly when its round exists, is open and before its reveal; the member's text is then the one sent, an earlier answer keeps its id and time, a new one has the new id and the present time, and nobody else's answer, no vote and no other round changes. |
| `DailyLaws.VoteLaw` | backend/internal/daily/service.go:446-490 | A vote is accepted exactly when its round is being voted on and not yet closed, and the answer is one of the round's and not the voter's; it replaces the voter's earlier one and nothing else. |
| `DailyLaws.EnsureLaw` | backend/internal/daily/service.go:608-649 | A round is created exactly when the group has none that day: open, empty, revealed at the group's hour or, if that is not after the opening, one hour after it, and closed eighteen hours later. |
| `DailyLaws.RetimeLaw` | backend/internal/daily/service.go:317-345 | Moving a group moves its open round of the day and no other, in its two times only, and fails altogether exactly when that round would be revealed before it opened. |
| `DailyLaws.RemovalLaw` | backend/internal/content/service.go:407-424 | Removing an answer removes exactly it and the votes for it, and fails exactly when there is none of that id. |
| `DailyLaws.LastSentIsKept` | backend/internal/daily/service.go:425-482 | Along every run, whatever workers, owners, players and moderators do, what the store holds for a member in a round is the last text and the last vote that member sent in time, unless the answer has been removed or the group deleted since. |
| `DailyLaws.LastTextStands` | backend/internal/daily/service.go:432-437 | After the last text a member sends in time, the answer stands with that text to the end of the run, exactly unless a moderator removes it or the group is deleted. |
| `DailyLaws.HarvestsHaveTheLastSent` | backend/internal/daily/promote.go:110-138 | Every harvest of every run was made at some point of it, and has of each member exactly the text and vote last sent in time before that point. |
| `DailyServices.DailyService.AdvanceDue` | backend/internal/daily/service.go:651-670 | Rounds as the join says, one harvest of each round just finalized unless its harvest fails, and the counts of rounds changed. |
| `DailyServices.DailyService.FinalizeRounds` | backend/internal/daily/promote.go:110-138 | The statement and the loop that passes over failed harvests: the due rounds final, the others among them harvested once each as they then are. |
| `DailyServices.DailyService.EnsureRound` | backend/internal/daily/service.go:608-649 | Creates today's round with the next number and times in order, or nothing if there is one. |
| `DailyServices.DailyService.Submit` | backend/internal/daily/service.go:401-444 | Answers and leaves behind what `DailyLaws.SubmitLaw` says. |
| `DailyServices.DailyService.Vote` | backend/internal/daily/service.go:446-490 | Answers and leaves behind what `DailyLaws.VoteLaw` says. |
| `DailyServices.DailyService.DeleteGroup` | backend/internal/daily/service.go:239-266 | The rounds of the group go, with their answers and votes, and no others. |
| `DailyServices.DailyService.DeleteDailySubmission` | backend/internal/content/service.go:407-424 | Takes the answer out of its round whatever the stage, with the votes for it, or reports that there is none. |
| `DailyServices.LoadRound` | backend/internal/daily/service.go:717-799 | While the round is open a member sees how many answered and the own answer; afterwards all answers, without authors and votes until the round is final; then the winners are exactly the answers with votes that no answer has more of. |
| `DailyServices.EveryVoteCounts` | backend/internal/daily/service.go:740-752 | The tallies of all answers of a round add up to the number of its voters. |
| `DailyServices.GroupStreak` | backend/internal/daily/service.go:801-845 | The streak is the longest run of days without a gap ending with the newest date, and zero exactly when there is none since yesterday. |
| `CardCandidates.NormalizedTwice` | backend/internal/daily/promote.go:89-106 | Normalizing a key again changes nothing. |
| `CardCandidates.SameKeySameWords` | backend/internal/daily/promote.go:89-106 | Two texts have the same key exactly when, in lower case and without punctuation, they are the same words in the same order; a key is empty exactly when there are none. |
| `CardCandidates.KeyIsSpacedWords` | backend/internal/daily/promote.go:89-106 | The key is those words with one space between each two. |
| `CardCandidates.SameJoke` | backend/internal/daily/promote.go:86-106 | Other capitals or punctuation do not change a text's key. |
| `CardCandidates.NormalizeCandidateText` | backend/internal/daily/promote.go:89-106 | The loop with its lastSpace flag computes the key. |
| `CardCandidates.QueueKeepsTheMost` | backend/internal/daily/promote.go:66-75 | However rounds are merged, a pending candidate ends with the most votes seen under its key and a reviewed one is untouched. |
| `CardCandidates.EveryFindIsQueued` | backend/internal/daily/promote.go:59-82 | Every answer put forward with a key is in the queue afterwards, with at least its votes while pending. |
| `CardCandidates.FirstFindDecides` | migrations/006_content_platform.sql:42-44 | When a group is deleted a candidate goes exactly if a round of that group was the first to put it forward, whatever votes other groups gave it later; the others are left as they are, with the text and author of the first find. |
| `CardTelemetry.GroupByColumn` | backend/internal/telemetry/cards.go:150-157 | Every pending event is in the group of its own column, as often as it was pending. |
| `CardTelemetry.WriteGroups` | backend/internal/telemetry/cards.go:164-193 | The batch splits into what was written and what was lost, by metric, and both are counted exactly. |
| `CardTelemetry.CardRecorder.Record` | backend/internal/telemetry/cards.go:78-89 | Buffers the event, or counts it as dropped exactly when the buffer is full, whether or not anybody still reads the buffer; an empty uuid is ignored. |
| `CardTelemetry.CardRecorder.Flush` | backend/internal/telemetry/cards.go:145-194 | Empties the batch; everything recorded is still accounted for as sent in a statement that succeeded or failed, turned away, buffered or pending, and the three counters count theirs. |
| `CardTelemetry.CardRecorder.Stop` | backend/internal/telemetry/cards.go:114-117 | The last drain and the last flush, with nothing recorded in between: the counters then add up to the events recorded so far, and the goroutine is gone. |
| `CardTelemetry.CountedAtShutdown` | backend/internal/telemetry/cards.go:104-143 | At the end of any run that shuts the recorder down, with recording going on throughout, the counters fall short of the events recorded by exactly those recorded after the last drain, up to the buffer's capacity; so they add up exactly when nothing was. |
| `CardTelemetry.LatePlayIsNotCounted` | backend/cmd/api/main.go:101-109 | A run in which a card played after the recorder has returned is buffered and never counted. |

## Left out

- Integer widths: counters, revisions and sequence numbers are unbounded; `uint64` revisions and `int64` versions do not wrap.
- Names: trimming and stripping of control characters before the length limit; names are refused when they hold a control character.
- Room codes and search keys: letters beyond ASCII in `normalizeRoomCode`; the Unicode tables behind `NormalizeCandidateText`, which are parameters.
- Phases and content tiers arrive as values of their types; the refusals of unknown phase and tier strings in `RestoreRoom` are not modelled.
- Guest tokens are compared as values, not in constant time; tokens, ids, hashes and codes are not generated here.
- A room without a state observer, and `Join`, `IsFull`, `Evictable`, `VerifyPlayer` and the other getters.
- Slices shared between a returned player, a snapshot and a live hand: hands are values, and a player is an entry of a map that a method replaces.
- `SetDeck`, `Fingerprint`, the deck loader and its validators, and the telemetry calls a room makes.
- RoomManagers.RoomManager.GetRoom: runs as one sequence at one instant; other instances between its steps are in `RoomTakeover` and `RoomHolders`. Lease terms are taken as the store counts them, in whole seconds.
- RoomManagers.RoomManager.CreateRoom: does not model the second check for draining and capacity after the reservation, which only another goroutine could make fail.
- RoomManagers.RoomManager.FlushPendingRoomStates: does not model the ten-second deadline running out or network failures; `SaveQueue` covers arbitrary failures.
- RoomManagers.RoomManager.Shutdown: does not model closing the rooms' sockets and stopping their timers; the same holds for a revoked room.
- Eviction of idle rooms, registry metrics, readiness, and SQL, JSON and network errors.
- WebSocketConn.Conn.ReadMessage: leaves the write pump out, so nothing takes frames off the queue while a message is read; deadlines on the socket, the handshake and the close frame are not modelled.
- RateLimiter.AtMostTwiceTheLimit: for keys whose calls have a limit and share one window, as each caller's do.
- Which proxies' headers the limiter's key is taken from.
- DailyServices.DailyService.FinalizeRounds: a failed harvest counts as none; candidates it had queued before it failed stay queued.
- Group membership, authorization of members, owners and moderators by token, and the prompt of the day; the daily rounds take a member and a prompt as given.
- DailyServices.DailyService.EnsureRound: takes the instants of the local day as given; time zones and daylight saving are not modelled.
- The query that picks at most three answers with at least two votes for `CardCandidates`, and the limit of 366 days in the streak query.
- CardTelemetry.CardRecorder.Flush: whether each statement reaches the database is given; an unknown metric cannot be expressed.
