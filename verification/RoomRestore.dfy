// Bringing a room back from its persisted state (RestoreRoom and Resume in
// backend/internal/realtime/room.go).
module RoomRestore {
  import opened Wrappers
  import opened Sequences
  import opened Cards
  import opened RoomTypes
  import opened RoomRules
  import opened RoomInvariant
  import opened RoomPreservation
  import opened SubmissionOrder

  datatype RestoreError =
    | UnsupportedVersion | NoCode | InvalidPlayer | DuplicatePlayer | InvalidOrder | UnknownPlayer
    | UnknownHost | UnknownJudge | InvalidSubmission | DuplicateSubmission

  // --- room codes ---

  const CODE_ALPHABET := "ABCDEFGHJKLMNPQRSTUVWXYZ23456789"

  predicate IsBlank(c: char) {
    c == ' ' || '\t' <= c <= '\r'
  }

  function UpperChar(c: char): char {
    if 'a' <= c <= 'z' then c - 'a' + 'A' else c
  }

  function Upper(s: string): (r: string)
    ensures |r| == |s|
  {
    seq(|s|, i requires 0 <= i < |s| => UpperChar(s[i]))
  }

  function Trim(s: string): string
    decreases |s|
  {
    if s == "" then s
    else if IsBlank(s[0]) then Trim(s[1..])
    else if IsBlank(s[|s| - 1]) then Trim(s[..|s| - 1])
    else s
  }

  function NormalCode(code: string): string {
    Upper(Trim(code))
  }

  ghost predicate Generated(code: string) {
    code != "" && forall i :: 0 <= i < |code| ==> code[i] in CODE_ALPHABET
  }

  lemma GeneratedIsNormal(code: string)
    requires Generated(code)
    ensures NormalCode(code) == code
  {
    forall i | 0 <= i < |code|
      ensures !IsBlank(code[i]) && UpperChar(code[i]) == code[i]
    {
      AlphabetIsUpper(code[i]);
    }
  }

  lemma AlphabetIsUpper(c: char)
    requires c in CODE_ALPHABET
    ensures !IsBlank(c) && UpperChar(c) == c
  {
    var j :| 0 <= j < |CODE_ALPHABET| && CODE_ALPHABET[j] == c;
  }

  lemma {:induction false} TrimmedEnds(s: string)
    ensures var t := Trim(s); t == "" || (!IsBlank(t[0]) && !IsBlank(t[|t| - 1]))
    decreases |s|
  {
    if s != "" && IsBlank(s[0]) {
      TrimmedEnds(s[1..]);
    } else if s != "" && IsBlank(s[|s| - 1]) {
      TrimmedEnds(s[..|s| - 1]);
    }
  }

  // A code is the same however it is typed: once normal, it stays so.
  lemma NormalTwice(code: string)
    ensures NormalCode(NormalCode(code)) == NormalCode(code)
  {
    var t := NormalCode(code);
    TrimmedEnds(code);
    assert t != "" ==> t[0] == UpperChar(Trim(code)[0]) && t[|t| - 1] == UpperChar(Trim(code)[|t| - 1]);
    assert Trim(t) == t;
    assert forall i :: 0 <= i < |t| ==> t[i] == UpperChar(Trim(code)[i]);
    assert Upper(t) == t;
  }

  // --- RestoreRoom ---

  // Computers are always there; people reconnect.
  function RestorePlayer(p: PersistedPlayer): Player {
    Player(p.id, p.name, p.token, p.score, p.isComputer, p.isComputer, p.isJudge, p.hand)
  }

  function RestorePlayers(saved: seq<PersistedPlayer>, done: map<Id, Player>): Result<map<Id, Player>, RestoreError>
    decreases |saved|
  {
    if saved == [] then Success(done)
    else if saved[0].id == 0 || saved[0].token == 0 then Failure(InvalidPlayer)
    else if saved[0].id in done then Failure(DuplicatePlayer)
    else RestorePlayers(saved[1..], done[saved[0].id := RestorePlayer(saved[0])])
  }

  function RestoreSubmissions(saved: seq<Submission>, players: map<Id, Player>, done: map<Id, Submission>)
    : Result<map<Id, Submission>, RestoreError>
    decreases |saved|
  {
    if saved == [] then Success(done)
    else if saved[0].id == 0 || saved[0].playerId !in players then Failure(InvalidSubmission)
    else if saved[0].id in done then Failure(DuplicateSubmission)
    else RestoreSubmissions(saved[1..], players, done[saved[0].id := saved[0]])
  }

  function AtLeastOne(n: nat): nat {
    if n < 1 then 1 else n
  }

  // 0 is the zero time.
  function OrNow(t: int, now: int): int {
    if t == 0 then now else t
  }

  function Restocked(s: RoomState): RoomState {
    var t := if s.answerPile == []
             then s.(answerPile := AnswerShoe(s.deck.answers, s.entropy, s.entropy.answerShuffles),
                     entropy := s.entropy.(answerShuffles := s.entropy.answerShuffles + 1))
             else s;
    if t.promptPile == []
    then t.(promptPile := PromptShoe(t.deck.prompts, t.entropy, t.entropy.promptShuffles),
            entropy := t.entropy.(promptShuffles := t.entropy.promptShuffles + 1))
    else t
  }

  function Rebuilt(p: PersistedRoomState, players: map<Id, Player>, subs: map<Id, Submission>,
                   deck: Deck, e: Entropy, now: int): RoomState {
    Restocked(RoomState(
      NormalCode(p.code), deck, deck.For(p.contentTier),
      p.phase, AtLeastOne(p.phaseSeq), p.phaseDeadline, None, p.roundNumber, p.prompt,
      p.hostID, p.judgeID, p.judgeIndex,
      ClampInt(p.scoreLimit, MIN_SCORE_LIMIT, MAX_SCORE_LIMIT, DEFAULT_SCORE_LIMIT),
      ClampInt(p.submitSecs, MIN_SUBMIT_SECS, MAX_SUBMIT_SECS, DEFAULT_SUBMIT_SECS),
      ClampInt(p.maxPlayers, MIN_PLAYERS_TO_START, MAX_PLAYERS_CEILING, DEFAULT_MAX_PLAYERS),
      p.contentTier, players, p.order, subs, p.answerPile, p.promptPile, map[],
      OrNow(p.createdAt, now), OrNow(p.updatedAt, now), AtLeastOne(p.revision),
      None, multiset{}, e))
  }

  function Restore(p: PersistedRoomState, deck: Deck, e: Entropy, now: int): Result<RoomState, RestoreError> {
    if p.schemaVersion != ROOM_STATE_VERSION then Failure(UnsupportedVersion)
    else if NormalCode(p.code) == "" then Failure(NoCode)
    else
      var players := RestorePlayers(p.players, map[]);
      if players.Failure? then Failure(players.error)
      else if |p.order| != |players.value|
              || |p.order| > ClampInt(p.maxPlayers, MIN_PLAYERS_TO_START, MAX_PLAYERS_CEILING, DEFAULT_MAX_PLAYERS)
      then Failure(InvalidOrder)
      else if exists id :: id in p.order && id !in players.value then Failure(UnknownPlayer)
      else if p.hostID != 0 && p.hostID !in players.value then Failure(UnknownHost)
      else if p.judgeID != 0 && p.judgeID !in players.value then Failure(UnknownJudge)
      else
        var subs := RestoreSubmissions(p.submissions, players.value, map[]);
        if subs.Failure? then Failure(subs.error)
        else Success(Rebuilt(p, players.value, subs.value, deck, e, now))
  }

  // --- which snapshots are accepted ---

  ghost predicate Known(players: seq<PersistedPlayer>, id: Id) {
    exists i :: 0 <= i < |players| && players[i].id == id
  }

  ghost predicate Identified(players: seq<PersistedPlayer>) {
    (forall i :: 0 <= i < |players| ==> players[i].id != 0 && players[i].token != 0)
    && forall i, j :: 0 <= i < j < |players| ==> players[i].id != players[j].id
  }

  ghost predicate Attributed(subs: seq<Submission>, players: seq<PersistedPlayer>) {
    (forall i :: 0 <= i < |subs| ==> subs[i].id != 0 && Known(players, subs[i].playerId))
    && forall i, j :: 0 <= i < j < |subs| ==> subs[i].id != subs[j].id
  }

  // What a snapshot has to be. The seats are counted and looked up but not compared,
  // so an order that names one player twice and another not at all passes.
  ghost predicate Acceptable(p: PersistedRoomState) {
    p.schemaVersion == 1 && (exists i :: 0 <= i < |p.code| && !IsBlank(p.code[i]))
    && Identified(p.players) && Attributed(p.submissions, p.players)
    && |p.order| == |p.players| && |p.order| <= ClampInt(p.maxPlayers, 3, 20, 12)
    && (forall i :: 0 <= i < |p.order| ==> Known(p.players, p.order[i]))
    && (p.hostID == 0 || Known(p.players, p.hostID)) && (p.judgeID == 0 || Known(p.players, p.judgeID))
  }

  lemma {:induction false} BlankTrims(s: string)
    ensures Trim(s) != "" <==> exists i :: 0 <= i < |s| && !IsBlank(s[i])
    decreases |s|
  {
    if s != "" && IsBlank(s[0]) {
      BlankTrims(s[1..]);
      assert forall i :: 0 < i < |s| ==> s[i] == s[1..][i - 1];
      assert forall i :: 0 <= i < |s| - 1 ==> s[1..][i] == s[i + 1];
    } else if s != "" && IsBlank(s[|s| - 1]) {
      BlankTrims(s[..|s| - 1]);
    }
  }

  lemma KnownCons(saved: seq<PersistedPlayer>, id: Id)
    requires saved != []
    ensures Known(saved, id) <==> id == saved[0].id || Known(saved[1..], id)
  {
    if Known(saved[1..], id) {
      var i :| 0 <= i < |saved[1..]| && saved[1..][i].id == id;
      assert saved[i + 1].id == id;
    }
  }

  lemma IdentifiedCons(saved: seq<PersistedPlayer>)
    requires saved != []
    ensures Identified(saved) <==>
              saved[0].id != 0 && saved[0].token != 0 && !Known(saved[1..], saved[0].id) && Identified(saved[1..])
  {
    var rest := saved[1..];
    assert forall i :: 0 <= i < |rest| ==> rest[i] == saved[i + 1];
    assert forall i :: 0 < i < |saved| ==> saved[i] == rest[i - 1];
  }

  // The players read so far and those still to come.
  lemma {:induction false} PlayersRead(saved: seq<PersistedPlayer>, done: map<Id, Player>)
    ensures var r := RestorePlayers(saved, done);
            (r.Success? <==> Identified(saved) && forall id :: Known(saved, id) ==> id !in done)
            && (r.Success? ==> |r.value| == |done| + |saved| && forall id :: id in r.value <==> id in done || Known(saved, id))
    decreases |saved|
  {
    hide Known, Identified, RestorePlayer;
    if saved == [] {
      assert Identified(saved) && forall id :: !Known(saved, id) by {
        NobodySaved();
      }
    } else {
      IdentifiedCons(saved);
      forall id
        ensures Known(saved, id) <==> id == saved[0].id || Known(saved[1..], id)
      {
        KnownCons(saved, id);
      }
      if saved[0].id != 0 && saved[0].token != 0 && saved[0].id !in done {
        PlayersRead(saved[1..], done[saved[0].id := RestorePlayer(saved[0])]);
        assert |done[saved[0].id := RestorePlayer(saved[0])]| == |done| + 1;
      }
    }
  }

  lemma NobodySaved()
    ensures Identified([]) && forall id :: !Known([], id)
  {
  }

  lemma {:induction false} PlayersAsSaved(saved: seq<PersistedPlayer>, done: map<Id, Player>)
    requires RestorePlayers(saved, done).Success?
    ensures var r := RestorePlayers(saved, done).value;
            (forall id :: id in done ==> id in r && r[id] == done[id])
            && forall i :: 0 <= i < |saved| ==> saved[i].id in r && r[saved[i].id] == RestorePlayer(saved[i])
    decreases |saved|
  {
    hide RestorePlayer;
    if saved != [] {
      PlayersAsSaved(saved[1..], done[saved[0].id := RestorePlayer(saved[0])]);
      assert forall i :: 0 < i < |saved| ==> saved[i] == saved[1..][i - 1];
    }
  }

  lemma {:induction false} SubmissionsRead(saved: seq<Submission>, players: map<Id, Player>, done: map<Id, Submission>)
    ensures var r := RestoreSubmissions(saved, players, done);
            (r.Success? <==>
               (forall i :: 0 <= i < |saved| ==> saved[i].id != 0 && saved[i].playerId in players && saved[i].id !in done)
               && forall i, j :: 0 <= i < j < |saved| ==> saved[i].id != saved[j].id)
            && (r.Success? ==>
                  |r.value| == |done| + |saved|
                  && (forall k :: k in done ==> k in r.value && r.value[k] == done[k])
                  && forall i :: 0 <= i < |saved| ==> saved[i].id in r.value && r.value[saved[i].id] == saved[i])
    decreases |saved|
  {
    if saved != [] && saved[0].id != 0 && saved[0].playerId in players && saved[0].id !in done {
      var rest, next := saved[1..], done[saved[0].id := saved[0]];
      SubmissionsRead(rest, players, next);
      assert forall i :: 0 <= i < |rest| ==> rest[i] == saved[i + 1];
      assert forall i :: 0 < i < |saved| ==> saved[i] == rest[i - 1];
      assert |next| == |done| + 1;
    }
  }

  // A snapshot is restored exactly when it is acceptable.
  lemma RestoreAccepts(p: PersistedRoomState, deck: Deck, e: Entropy, now: int)
    ensures Restore(p, deck, e, now).Success? <==> Acceptable(p)
  {
    hide ClampInt, Trim, IsBlank, RestorePlayers, RestoreSubmissions, Known, Rebuilt, Identified;
    BlankTrims(p.code);
    PlayersRead(p.players, map[]);
    var players := RestorePlayers(p.players, map[]);
    if players.Success? {
      SubmissionsRead(p.submissions, players.value, map[]);
      OrderKnown(p.order, p.players, players.value);
    }
  }

  // Its players and cards then come back as they were saved, people disconnected and
  // computers there.
  lemma RestoredAsSaved(p: PersistedRoomState, deck: Deck, e: Entropy, now: int)
    requires Acceptable(p)
    ensures var r := Restore(p, deck, e, now);
            r.Success?
            && var s := r.value;
               s.order == p.order && |s.players| == |p.players| && |s.submissions| == |p.submissions|
               && (forall i :: 0 <= i < |p.players| ==>
                     var q := p.players[i];
                     q.id in s.players
                     && s.players[q.id] == Player(q.id, q.name, q.token, q.score, q.isComputer, q.isComputer, q.isJudge, q.hand))
               && forall i :: 0 <= i < |p.submissions| ==>
                    p.submissions[i].id in s.submissions && s.submissions[p.submissions[i].id] == p.submissions[i]
  {
    hide ClampInt, NormalCode, RestorePlayers, RestoreSubmissions, Acceptable, Rebuilt;
    RestoreAccepts(p, deck, e, now);
    PlayersRead(p.players, map[]);
    PlayersAsSaved(p.players, map[]);
    var players := RestorePlayers(p.players, map[]).value;
    SubmissionsRead(p.submissions, players, map[]);
    RebuiltParts(p, players, RestoreSubmissions(p.submissions, players, map[]).value, deck, e, now);
  }

  lemma OrderKnown(order: seq<Id>, saved: seq<PersistedPlayer>, players: map<Id, Player>)
    requires forall id :: id in players <==> Known(saved, id)
    ensures (exists id :: id in order && id !in players) <==> !(forall i :: 0 <= i < |order| ==> Known(saved, order[i]))
  {
    hide Known;
  }

  lemma RebuiltParts(p: PersistedRoomState, players: map<Id, Player>, subs: map<Id, Submission>, deck: Deck, e: Entropy, now: int)
    ensures var s := Rebuilt(p, players, subs, deck, e, now); s.order == p.order && s.players == players && s.submissions == subs
  {
    hide ClampInt, AnswerShoe, PromptShoe;
  }

  // Everybody restored has a seat exactly when the saved order repeats nobody, which
  // the checks do not ask.
  lemma EveryoneIsSeated(p: PersistedRoomState, deck: Deck, e: Entropy, now: int)
    requires Restore(p, deck, e, now).Success?
    ensures var s := Restore(p, deck, e, now).value;
            (forall id :: id in s.players ==> id in s.order) <==> forall i, j :: 0 <= i < j < |p.order| ==> p.order[i] != p.order[j]
  {
    hide ClampInt, NormalCode, Restore;
    RestoreAccepts(p, deck, e, now);
    RestoredAsSaved(p, deck, e, now);
    var s := Restore(p, deck, e, now).value;
    forall id | id in s.order
      ensures id in s.players
    {
      var i :| 0 <= i < |p.order| && p.order[i] == id;
      assert Known(p.players, p.order[i]);
    }
    SubsetCardinality(Elements(s.order), s.players.Keys);
    FewerElements(s.order);
    if Distinct(s.order) {
      DistinctCardinality(s.order);
    }
  }

  lemma RepeatedSeatPasses(p: PersistedRoomState)
    requires Acceptable(p) && |p.order| >= 2
    ensures Acceptable(p.(order := p.order[1 := p.order[0]]))
  {
    hide ClampInt, Identified, Attributed, Known;
    var order := p.order[1 := p.order[0]];
    assert forall i :: 0 <= i < |order| ==> order[i] == p.order[if i == 1 then 0 else i];
  }

  // Resume: computers get their turns back, and a deadline that was running is
  // armed again, or fires at once when it has already passed.
  ghost function Resume(s: RoomState, now: int): RoomState {
    var t := ScheduleComputerTurns(s);
    if t.timer.Some? || t.phaseDeadline.None? then t
    else
      t.(outstanding := t.outstanding + multiset{DeadlineTimer(t.phaseSeq)},
         timer := if t.phaseDeadline.value > now then Some(t.phaseSeq) else None)
  }

  // --- the round trip ---

  function SignOff(p: Player): Player {
    p.(connected := p.isComputer)
  }

  ghost function SignedOff(players: map<Id, Player>): map<Id, Player> {
    map id | id in players :: SignOff(players[id])
  }

  // The same room in a fresh process: nobody is connected, no timer runs, the
  // sequence number and revision are at least one, empty piles are shuffled anew.
  ghost function Revived(s: RoomState, deck: Deck, e: Entropy, now: int): RoomState {
    Restocked(s.(
      fullDeck := deck, deck := deck.For(s.contentTier), phaseSeq := AtLeastOne(s.phaseSeq), timer := None,
      players := SignedOff(s.players), clients := map[],
      createdAt := OrNow(s.createdAt, now), updatedAt := OrNow(s.updatedAt, now),
      stateVersion := AtLeastOne(s.stateVersion),
      published := None, outstanding := multiset{}, entropy := e))
  }

  ghost predicate JudgeGone(s: RoomState) {
    s.judgeID != 0 && s.judgeID !in s.players
  }

  lemma {:induction false} PlayersComeBack(players: map<Id, Player>, order: seq<Id>, done: map<Id, Player>)
    requires Distinct(order) && forall id :: id in order ==> id in players && id !in done
    requires forall id :: id in players ==> players[id].id == id && id != 0 && players[id].token != 0
    ensures var r := RestorePlayers(PersistPlayers(players, order), done);
            r.Success? && r.value.Keys == done.Keys + Elements(order)
            && (forall id :: id in done ==> r.value[id] == done[id])
            && (forall id :: id in order ==> r.value[id] == SignOff(players[id]))
    decreases |order|
  {
    if order != [] {
      var saved := PersistPlayers(players, order);
      assert saved[1..] == PersistPlayers(players, order[1..]);
      assert RestorePlayer(saved[0]) == SignOff(players[order[0]]);
      var next := done[order[0] := SignOff(players[order[0]])];
      PlayersComeBack(players, order[1..], next);
      assert Elements(order) == {order[0]} + Elements(order[1..]);
      assert order == [order[0]] + order[1..];
    }
  }

  lemma {:induction false} SubmissionsComeBack(saved: seq<Submission>, players: map<Id, Player>, done: map<Id, Submission>)
    requires Ordered(saved) && forall x :: x in saved ==> x.id != 0 && x.id !in done && x.playerId in players
    requires forall i, j :: 0 <= i < j < |saved| ==> saved[i].id != saved[j].id
    ensures var r := RestoreSubmissions(saved, players, done);
            r.Success? && (forall k :: k in done ==> k in r.value && r.value[k] == done[k])
            && (forall x :: x in saved ==> x.id in r.value && r.value[x.id] == x)
            && (forall k :: k in r.value ==> k in done || exists x :: x in saved && x.id == k)
    decreases |saved|
  {
    hide Earlier;
    if saved != [] {
      var next := done[saved[0].id := saved[0]];
      SubmissionsComeBack(saved[1..], players, next);
      assert saved == [saved[0]] + saved[1..];
    }
  }

  lemma EveryoneComesBack(s: RoomState)
    requires Valid(s)
    ensures RestorePlayers(PersistPlayers(s.players, s.order), map[]) == Success(SignedOff(s.players))
  {
    hide Limits, DeckOk, JudgeFlags, Connections, Table, SevenCards, Stage, Persist;
    PlayersComeBack(s.players, s.order, map[]);
    var r := RestorePlayers(PersistPlayers(s.players, s.order), map[]);
    assert r.value == SignedOff(s.players);
  }

  lemma TableComesBack(players: map<Id, Player>, subs: map<Id, Submission>, nextId: Id)
    requires Table(players, subs, nextId)
    ensures RestoreSubmissions(SortedSubmissions(subs), SignedOff(players), map[]) == Success(subs)
  {
    hide Earlier, SortedSubmissions, Ordered;
    SortedLists(subs);
    var saved := SortedSubmissions(subs);
    OrderedIsDistinct(saved, subs);
    SubmissionsComeBack(saved, SignedOff(players), map[]);
    SameEntries(RestoreSubmissions(saved, SignedOff(players), map[]).value, saved, subs);
  }

  lemma SameEntries(r: map<Id, Submission>, saved: seq<Submission>, subs: map<Id, Submission>)
    requires Lists(saved, subs) && Keyed(subs)
    requires forall x :: x in saved ==> x.id in r && r[x.id] == x
    requires forall k :: k in r ==> exists x :: x in saved && x.id == k
    ensures r == subs
  {
    forall k | k in subs
      ensures k in r && r[k] == subs[k]
    {
      assert subs[k] in saved;
    }
  }

  lemma OrderedIsDistinct(saved: seq<Submission>, subs: map<Id, Submission>)
    requires Ordered(saved) && Lists(saved, subs)
    ensures forall i, j :: 0 <= i < j < |saved| ==> saved[i].id != saved[j].id
  {
    forall i, j | 0 <= i < j < |saved|
      ensures saved[i].id != saved[j].id
    {
      assert Earlier(saved[i], saved[j]) && saved[i] in saved && saved[j] in saved;
    }
  }

  lemma SettingsSurvive(scoreLimit: int, submitSecs: int, maxPlayers: int, seats: nat)
    requires Limits(scoreLimit, submitSecs, maxPlayers, seats)
    ensures ClampInt(scoreLimit, MIN_SCORE_LIMIT, MAX_SCORE_LIMIT, DEFAULT_SCORE_LIMIT) == scoreLimit
    ensures ClampInt(submitSecs, MIN_SUBMIT_SECS, MAX_SUBMIT_SECS, DEFAULT_SUBMIT_SECS) == submitSecs
    ensures ClampInt(maxPlayers, MIN_PLAYERS_TO_START, MAX_PLAYERS_CEILING, DEFAULT_MAX_PLAYERS) == maxPlayers
    ensures seats <= maxPlayers
  {
  }

  lemma SeatsCounted(players: map<Id, Player>, order: seq<Id>, nextId: Id)
    requires Roster(players, order, nextId)
    ensures |order| == |players| && forall id :: id in order ==> id in players
  {
    DistinctCardinality(order);
  }

  // A saved room comes back as it was, unless its judge has left it: the restore
  // check on the judge is the only one a room of ours can fail.
  lemma RoundTrip(s: RoomState, deck: Deck, e: Entropy, now: int)
    requires Valid(s) && Generated(s.code)
    ensures Restore(Persist(s), deck, e, now)
         == if JudgeGone(s) then Failure(UnknownJudge) else Success(Revived(s, deck, e, now))
  {
    hide Roster, Limits, DeckOk, JudgeFlags, Table, SevenCards, Stage;
    hide RestorePlayers, RestoreSubmissions, NormalCode, ClampInt, Restocked, SortedSubmissions, PersistPlayers;
    GeneratedIsNormal(s.code);
    EveryoneComesBack(s);
    TableComesBack(s.players, s.submissions, s.entropy.nextId);
    SettingsSurvive(s.scoreLimit, s.submitSecs, s.maxPlayers, |s.order|);
    SeatsCounted(s.players, s.order, s.entropy.nextId);
    assert SignedOff(s.players).Keys == s.players.Keys;
    assert |SignedOff(s.players)| == |s.players|;
  }

  // --- the restored room plays on ---

  lemma SignedOffSeats(players: map<Id, Player>, order: seq<Id>, nextId: Id, next: Id)
    requires Roster(players, order, nextId) && nextId <= next
    ensures Roster(SignedOff(players), order, next)
  {
  }

  lemma SignedOffFlags(players: map<Id, Player>, judgeID: Id, nextId: Id, next: Id)
    requires JudgeFlags(players, judgeID, nextId) && nextId <= next
    ensures JudgeFlags(SignedOff(players), judgeID, next)
  {
  }

  lemma SignedOffConnections(players: map<Id, Player>, clients: map<Id, set<Id>>, hostID: Id)
    requires Connections(players, clients, hostID)
    ensures Connections(SignedOff(players), map[], hostID)
  {
  }

  lemma SignedOffTable(players: map<Id, Player>, subs: map<Id, Submission>, nextId: Id, next: Id)
    requires Table(players, subs, nextId) && SevenCards(players, subs) && nextId <= next
    ensures Table(SignedOff(players), subs, next) && SevenCards(SignedOff(players), subs)
  {
    hide HasSubmission;
  }

  lemma SignedOffScores(phase: Phase, players: map<Id, Player>, limit: int)
    requires Scores(phase, players, limit)
    ensures Scores(phase, SignedOff(players), limit)
  {
  }

  ghost predicate FreshlyLoaded(s: RoomState) {
    s.timer.None? && s.outstanding == multiset{} && s.phaseSeq >= 1
    && (if TimedPhase(s.phase) then s.phaseDeadline.Some? else s.phaseDeadline.None?)
  }

  lemma ResumedTimers(s: RoomState, now: int)
    requires FreshlyLoaded(s) && Roster(s.players, s.order, s.entropy.nextId) && SevenCards(s.players, s.submissions)
    requires s.phase == Judging ==> |s.submissions| > 0
    ensures var t := Resume(s, now);
            Timers(t.phase, t.phaseSeq, t.phaseDeadline, t.timer, t.outstanding)
            && ComputersDue(t.phase, t.phaseSeq, t.judgeID, t.players, t.submissions, t.outstanding)
  {
    hide Timers, ComputersDue, Resume;
    ResumeArms(s, now);
    ResumeSchedules(s, now);
  }

  lemma ResumeArms(s: RoomState, now: int)
    requires FreshlyLoaded(s)
    ensures var t := Resume(s, now); Timers(t.phase, t.phaseSeq, t.phaseDeadline, t.timer, t.outstanding)
  {
    var turns := ComputerTurns(s.phase, s.phaseSeq, s.judgeID, s.order, s.players, s.submissions);
    assert forall c :: c in turns <==> c in multiset(turns);
  }

  lemma ResumeSchedules(s: RoomState, now: int)
    requires Roster(s.players, s.order, s.entropy.nextId) && SevenCards(s.players, s.submissions)
    requires s.phase == Judging ==> |s.submissions| > 0
    ensures var t := Resume(s, now);
            ComputersDue(t.phase, t.phaseSeq, t.judgeID, t.players, t.submissions, t.outstanding)
  {
    hide Roster, SevenCards, ComputersDue, ComputerTurns;
    var t := ScheduleComputerTurns(s);
    TurnsAreDue(s.phase, s.phaseSeq, s.judgeID, s.order, s.players, s.submissions, s.outstanding, s.entropy.nextId);
    MoreOutstanding(t.phase, t.phaseSeq, t.judgeID, t.players, t.submissions, t.outstanding, DeadlineTimer(t.phaseSeq));
  }

  lemma TurnsAreDue(phase: Phase, phaseSeq: nat, judgeID: Id, order: seq<Id>, players: map<Id, Player>, subs: map<Id, Submission>,
                    outstanding: multiset<Callback>, nextId: Id)
    requires Roster(players, order, nextId) && SevenCards(players, subs) && (phase == Judging ==> |subs| > 0)
    ensures ComputersDue(phase, phaseSeq, judgeID, players, subs,
                         outstanding + multiset(ComputerTurns(phase, phaseSeq, judgeID, order, players, subs)))
  {
    hide HasSubmission;
    var turns := ComputerTurns(phase, phaseSeq, judgeID, order, players, subs);
    assert forall c :: c in turns ==> c in multiset(turns);
    if phase == Submitting {
      forall id | id in players && players[id].isComputer && id != judgeID && !HasSubmission(subs, id)
        ensures ComputerAnswer(id, phaseSeq) in turns
      {
        assert id in Elements(order) && OwesCard(id, judgeID, players, subs);
      }
    }
  }

  lemma MoreOutstanding(phase: Phase, phaseSeq: nat, judgeID: Id, players: map<Id, Player>, subs: map<Id, Submission>,
                        outstanding: multiset<Callback>, c: Callback)
    requires ComputersDue(phase, phaseSeq, judgeID, players, subs, outstanding)
    ensures ComputersDue(phase, phaseSeq, judgeID, players, subs, outstanding + multiset{c})
  {
    hide HasSubmission;
  }

  lemma RestockedFrame(s: RoomState)
    ensures var t := Restocked(s);
            t == s.(answerPile := t.answerPile, promptPile := t.promptPile, entropy := t.entropy)
            && t.entropy.nextId == s.entropy.nextId
    ensures s.answerPile != [] ==> Restocked(s).answerPile == s.answerPile
    ensures s.promptPile != [] ==> Restocked(s).promptPile == s.promptPile
  {
    hide AnswerShoe, PromptShoe;
  }

  lemma RevivedFrame(s: RoomState, deck: Deck, e: Entropy, now: int)
    ensures var r := Revived(s, deck, e, now);
            r.players == SignedOff(s.players) && r.clients == map[] && r.order == s.order && r.submissions == s.submissions
            && r.hostID == s.hostID && r.judgeID == s.judgeID && r.judgeIndex == s.judgeIndex && r.prompt == s.prompt
            && r.phase == s.phase && r.phaseDeadline == s.phaseDeadline && r.phaseSeq == AtLeastOne(s.phaseSeq)
            && r.scoreLimit == s.scoreLimit && r.submitSecs == s.submitSecs && r.maxPlayers == s.maxPlayers
            && r.contentTier == s.contentTier && r.fullDeck == deck && r.deck == deck.For(s.contentTier)
            && r.timer.None? && r.outstanding == multiset{} && r.entropy.nextId == e.nextId
            && r.published.None? && r.stateVersion == AtLeastOne(s.stateVersion) && r.code == s.code
  {
    hide SignedOff, Restocked;
    RestockedFrame(s.(
      fullDeck := deck, deck := deck.For(s.contentTier), phaseSeq := AtLeastOne(s.phaseSeq), timer := None,
      players := SignedOff(s.players), clients := map[],
      createdAt := OrNow(s.createdAt, now), updatedAt := OrNow(s.updatedAt, now),
      stateVersion := AtLeastOne(s.stateVersion),
      published := None, outstanding := multiset{}, entropy := e));
  }

  lemma RevivedCore(s: RoomState, deck: Deck, e: Entropy, now: int)
    requires Core(s) && deck.For(Party).Playable() && deck.For(Family).Playable() && e.nextId >= s.entropy.nextId
    ensures Core(Revived(s, deck, e, now))
  {
    hide Limits, Connections, Table, JudgeFlags, SevenCards, Revived, Roster, SignedOff;
    RevivedFrame(s, deck, e, now);
    SignedOffSeats(s.players, s.order, s.entropy.nextId, e.nextId);
    SignedOffFlags(s.players, s.judgeID, s.entropy.nextId, e.nextId);
    SignedOffConnections(s.players, s.clients, s.hostID);
    SignedOffTable(s.players, s.submissions, s.entropy.nextId, e.nextId);
  }

  lemma ResumeFrame(s: RoomState, now: int)
    ensures Resume(s, now) == s.(timer := Resume(s, now).timer, outstanding := Resume(s, now).outstanding)
  {
  }

  lemma RevivedResumes(s: RoomState, deck: Deck, e: Entropy, now: int)
    requires Good(s)
    requires deck.For(Party).Playable() && deck.For(Family).Playable() && e.nextId >= s.entropy.nextId
    ensures Good(Resume(Revived(s, deck, e, now), now))
  {
    hide Core, Revived, Scores, SignedOff, Resume, ComputersDue;
    RevivedFrame(s, deck, e, now);
    RevivedCore(s, deck, e, now);
    SignedOffScores(s.phase, s.players, s.scoreLimit);
    var r := Revived(s, deck, e, now);
    ResumeFrame(r, now);
    CoreHasSeats(r);
    ResumedTimers(r, now);
    CoreIgnoresTimers(r, Resume(r, now));
  }

  lemma CoreHasSeats(s: RoomState)
    requires Core(s)
    ensures Roster(s.players, s.order, s.entropy.nextId) && SevenCards(s.players, s.submissions)
  {
  }

  lemma CoreIgnoresTimers(s: RoomState, t: RoomState)
    requires Core(s) && t == s.(timer := t.timer, outstanding := t.outstanding)
    ensures Core(t)
  {
  }

  // Restoring a saved room and resuming it gives a valid room: its deadline is armed
  // and its computers have their turns, whatever deck it is given and whoever was
  // connected before. Runs go on from there.
  lemma RestoredRoomIsValid(s: RoomState, deck: Deck, e: Entropy, now: int)
    requires Valid(s) && Generated(s.code) && !JudgeGone(s)
    requires deck.For(Party).Playable() && deck.For(Family).Playable() && e.nextId >= s.entropy.nextId
    ensures Restore(Persist(s), deck, e, now).Success?
    ensures Valid(Resume(Restore(Persist(s), deck, e, now).value, now))
  {
    hide Restore, Persist, Good, Revived, Resume;
    RoundTrip(s, deck, e, now);
    RevivedResumes(s, deck, e, now);
    RevivedFrame(s, deck, e, now);
    ResumeFrame(Revived(s, deck, e, now), now);
    ToldNothing(Resume(Revived(s, deck, e, now), now));
  }

  lemma ToldNothing(s: RoomState)
    requires Good(s) && s.published.None?
    ensures Valid(s)
  {
  }

  // Nothing about the room has to be filled in.
  ghost predicate Complete(s: RoomState, deck: Deck, now: int) {
    s.phaseSeq >= 1 && s.stateVersion >= 1 && OrNow(s.createdAt, now) == s.createdAt && OrNow(s.updatedAt, now) == s.updatedAt
    && (s.answerPile == [] ==> deck.For(s.contentTier).answers == []) && (s.promptPile == [] ==> deck.For(s.contentTier).prompts == [])
  }

  lemma RestockedOnlyIfEmpty(s: RoomState)
    ensures Restocked(s).answerPile == s.answerPile <==> (s.answerPile == [] ==> s.deck.answers == [])
    ensures Restocked(s).promptPile == s.promptPile <==> (s.promptPile == [] ==> s.deck.prompts == [])
  {
    ShuffleIsPermutation(s.deck.answers, AnswerRoll(s.entropy, s.entropy.answerShuffles));
    ShuffleIsPermutation(s.deck.prompts, PromptRoll(s.entropy, s.entropy.promptShuffles));
  }

  // A restore keeps the revision. Saving the restored room again writes what was
  // read exactly when nothing had to be filled in: a sequence number of a first
  // lobby, which is 0, a revision of 0, a missing time, or a pile that had run out.
  // Otherwise two different persisted states carry the same revision until the
  // next change.
  lemma RestoreIsStable(s: RoomState, deck: Deck, e: Entropy, now: int)
    requires Valid(s) && Generated(s.code) && !JudgeGone(s)
    ensures Restore(Persist(s), deck, e, now).Success? && Seated(Restore(Persist(s), deck, e, now).value)
    ensures var r := Restore(Persist(s), deck, e, now).value;
            r.stateVersion == AtLeastOne(s.stateVersion) && (Persist(r) == Persist(s) <==> Complete(s, deck, now))
  {
    hide Restore, Good, SortedSubmissions, Restocked;
    RoundTrip(s, deck, e, now);
    RevivedFrame(s, deck, e, now);
    var filled := s.(
      fullDeck := deck, deck := deck.For(s.contentTier), phaseSeq := AtLeastOne(s.phaseSeq), timer := None,
      players := SignedOff(s.players), clients := map[],
      createdAt := OrNow(s.createdAt, now), updatedAt := OrNow(s.updatedAt, now),
      stateVersion := AtLeastOne(s.stateVersion),
      published := None, outstanding := multiset{}, entropy := e);
    RestockedFrame(filled);
    RestockedOnlyIfEmpty(filled);
    assert PersistPlayers(SignedOff(s.players), s.order) == PersistPlayers(s.players, s.order);
  }

  // --- when a room cannot come back ---

  lemma RemovalLeavesRest(s: RoomState, player: Id)
    requires player in s.players
    ensures var t := RemovePlayer(s, player);
            t.judgeID == s.judgeID && t.phase == s.phase && t.players == s.players - {player} && t.order == Without(s.order, player)
  {
    hide FirstConnectedHuman, FirstHuman, CursorAfter, Without, HasSubmission, CardPlayed;
  }

  lemma LossAndJudge(s: RoomState, wasJudge: bool, now: int)
    requires Seated(s)
    ensures var t := ApplyRosterLoss(s, wasJudge, now);
            Seated(t) && t.players.Keys == s.players.Keys
            && t.judgeID == if wasJudge && s.phase != Lobby && s.phase != Finished && |s.order| >= MIN_PLAYERS_TO_START
                            then 0 else s.judgeID
  {
    hide Persist, TakeBack, ComputerTurns;
  }

  // A departure leaves behind a room that RestoreRoom refuses exactly when the
  // judge leaves and the round is not voided for it: the answers are already in
  // or judged, or too few remain. (Or the judge was gone before.)
  lemma DepartureStrandsRoom(s: RoomState, player: Id, now: int)
    requires Valid(s) && player in s.players
    ensures JudgeGone(Leave(s, player, now).room)
        <==> JudgeGone(s) || (player == s.judgeID
                              && (s.phase == Scoring || s.phase == Finished || |s.order| - 1 < MIN_PLAYERS_TO_START))
  {
    hide Limits, DeckOk, Connections, Table, SevenCards, Scores, Timers, ComputersDue, Persist;
    hide RemovePlayer, ApplyRosterLoss, HasSubmission;
    CoreFacts(s);
    WithoutKeeps(s.order, player);
    RemovalLeavesRest(s, player);
    RosterRemoves(s.players, s.order, s.entropy.nextId, player);
    LossAndJudge(RemovePlayer(s, player), s.players[player].isJudge && (s.phase == Submitting || s.phase == Judging), now);
  }

  // A room in play that a restart loses: the judge leaves after the reveal, the
  // room carries on, and its snapshot is refused.
  lemma RestartLosesRoom(s: RoomState, now: int, deck: Deck, e: Entropy, later: int)
    requires Valid(s) && Generated(s.code) && s.phase == Scoring && |s.order| > MIN_PLAYERS_TO_START && s.judgeID in s.players
    ensures var t := Leave(s, s.judgeID, now).room;
            Valid(t) && |t.order| >= MIN_PLAYERS_TO_START && Restore(Persist(t), deck, e, later) == Failure(UnknownJudge)
  {
    hide Good, Restore, Persist, Leave, Generated, JudgeGone;
    LeavingKeepsCode(s, s.judgeID, now);
    ValidIsGood(s);
    LeaveKeeps(s, s.judgeID, now);
    DepartureStrandsRoom(s, s.judgeID, now);
    RoundTrip(Leave(s, s.judgeID, now).room, deck, e, later);
  }

  lemma LeavingKeepsCode(s: RoomState, player: Id, now: int)
    requires Valid(s) && player in s.players
    ensures Leave(s, player, now).room.code == s.code
    ensures s.phase == Scoring && |s.order| > MIN_PLAYERS_TO_START ==> |Leave(s, player, now).room.order| >= MIN_PLAYERS_TO_START
  {
    hide Good, Persist, CardPlayed, HasSubmission, ComputerTurns, CursorAfter, FirstConnectedHuman, FirstHuman;
    WithoutKeeps(s.order, player);
  }
}
