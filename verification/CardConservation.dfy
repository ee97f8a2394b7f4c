// Answer cards are neither made nor lost, except by a shuffle of the whole deck.
module CardConservation {
  import opened Wrappers
  import opened Sequences
  import opened Cards
  import opened RoomTypes
  import opened RoomRules
  import opened RoomInvariant
  import opened RoomPreservation
  import opened RoundPreservation
  import opened RoomRuns

  // The card a player has on the table, if any. In a valid room every
  // submission has exactly one seated author, so over the seats these are all
  // the live submissions.
  ghost function Tabled(subs: map<Id, Submission>, id: Id): multiset<AnswerCard> {
    if HasSubmission(subs, id) then multiset{CardPlayed(subs, id)} else multiset{}
  }

  ghost function Held(players: map<Id, Player>, subs: map<Id, Submission>, id: Id): multiset<AnswerCard>
    requires id in players
  {
    multiset(players[id].hand) + Tabled(subs, id)
  }

  ghost function HeldBy(players: map<Id, Player>, subs: map<Id, Submission>, ids: seq<Id>): multiset<AnswerCard>
    requires forall id :: id in ids ==> id in players
  {
    if ids == [] then multiset{} else Held(players, subs, ids[0]) + HeldBy(players, subs, ids[1..])
  }

  ghost function OnTable(subs: map<Id, Submission>, ids: seq<Id>): multiset<AnswerCard> {
    if ids == [] then multiset{} else Tabled(subs, ids[0]) + OnTable(subs, ids[1..])
  }

  // Every answer card the room can still deal or has dealt.
  ghost function Circulating(s: RoomState): multiset<AnswerCard>
    requires Seated(s)
  {
    multiset(s.answerPile) + HeldBy(s.players, s.submissions, s.order)
  }

  // --- adding up over the seats ---

  lemma {:induction false} HeldSame(before: map<Id, Player>, subs: map<Id, Submission>,
                                    after: map<Id, Player>, subs': map<Id, Submission>, ids: seq<Id>)
    requires forall id :: id in ids ==> id in before && id in after && Held(after, subs', id) == Held(before, subs, id)
    ensures HeldBy(after, subs', ids) == HeldBy(before, subs, ids)
  {
    if ids != [] {
      HeldSame(before, subs, after, subs', ids[1..]);
    }
  }

  lemma {:induction false} HeldConcat(players: map<Id, Player>, subs: map<Id, Submission>, a: seq<Id>, id: Id)
    requires id in players && forall x :: x in a ==> x in players
    ensures HeldBy(players, subs, a + [id]) == HeldBy(players, subs, a) + Held(players, subs, id)
  {
    if a == [] {
      assert a + [id] == [id];
    } else {
      assert (a + [id])[1..] == a[1..] + [id];
      HeldConcat(players, subs, a[1..], id);
    }
  }

  lemma {:induction false} HeldWithout(players: map<Id, Player>, subs: map<Id, Submission>, ids: seq<Id>, id: Id)
    requires id in ids && forall x :: x in ids ==> x in players
    ensures forall x :: x in Without(ids, id) ==> x in players
    ensures HeldBy(players, subs, ids) == HeldBy(players, subs, Without(ids, id)) + Held(players, subs, id)
  {
    hide Held;
    WithoutWithin(ids, id);
    if ids[0] != id {
      HeldWithout(players, subs, ids[1..], id);
      assert Without(ids, id)[1..] == Without(ids[1..], id);
      MovedAcross(Held(players, subs, ids[0]), HeldBy(players, subs, Without(ids[1..], id)), Held(players, subs, id), multiset{});
    }
  }

  lemma {:induction false} TableCleared(players: map<Id, Player>, subs: map<Id, Submission>, ids: seq<Id>)
    requires forall x :: x in ids ==> x in players
    ensures HeldBy(players, subs, ids) == HeldBy(players, map[], ids) + OnTable(subs, ids)
  {
    hide HasSubmission;
    if ids != [] {
      TableCleared(players, subs, ids[1..]);
      NobodySubmitted();
      MovedAcross(multiset(players[ids[0]].hand), Tabled(subs, ids[0]), HeldBy(players, map[], ids[1..]), OnTable(subs, ids[1..]));
      assert Held(players, map[], ids[0]) == multiset(players[ids[0]].hand);
    }
  }

  // --- drawing ---

  // One card off the top: the pile it leaves is one card, and perhaps one
  // reshuffle, away from the pile there was.
  lemma TopCard(pile: seq<AnswerCard>, deck: seq<AnswerCard>, e: Entropy, shuffles: nat)
    requires deck != []
    ensures var full := if pile == [] then AnswerShoe(deck, e, shuffles) else pile;
            full != [] && multiset(full[..|full| - 1]) + multiset{full[|full| - 1]}
                          == multiset(pile) + Times(if pile == [] then 1 else 0, multiset(deck))
  {
    ShoeNotEmpty(Deck([], deck), e, shuffles);
    var full := if pile == [] then AnswerShoe(deck, e, shuffles) else pile;
    LastApart(full);
    ShuffleIsPermutation(deck, AnswerRoll(e, shuffles));
    assert Times(1, multiset(deck)) == multiset(deck) + Times(0, multiset(deck));
  }

  // What is drawn and what is left are what there was and one deck per shuffle.
  ghost predicate DrawBalances(pile: seq<AnswerCard>, deck: seq<AnswerCard>, d: Drawn, shuffles: nat) {
    d.shuffles >= shuffles
    && multiset(d.hand) + multiset(d.pile) == multiset(pile) + Times(d.shuffles - shuffles, multiset(deck))
  }

  lemma {:induction false} DrawConserves(pile: seq<AnswerCard>, deck: seq<AnswerCard>, e: Entropy, shuffles: nat, n: nat)
    requires deck != []
    ensures DrawBalances(pile, deck, DrawAnswers(pile, deck, e, shuffles, n), shuffles)
    decreases n
  {
    hide AnswerShoe, Times, DrawAnswers;
    DrawUnfolds(pile, deck, e, shuffles, n);
    if n == 0 {
      NoCopies(multiset(deck));
    } else {
      TopCard(pile, deck, e, shuffles);
      var full := if pile == [] then AnswerShoe(deck, e, shuffles) else pile;
      var extra: nat := if pile == [] then 1 else 0;
      DrawConserves(full[..|full| - 1], deck, e, shuffles + extra, n - 1);
      OneMoreCard(pile, deck, full, extra, DrawAnswers(full[..|full| - 1], deck, e, shuffles + extra, n - 1), shuffles);
    }
  }

  lemma OneMoreCard(pile: seq<AnswerCard>, deck: seq<AnswerCard>, full: seq<AnswerCard>, extra: nat, rest: Drawn, shuffles: nat)
    requires full != []
    requires multiset(full[..|full| - 1]) + multiset{full[|full| - 1]} == multiset(pile) + Times(extra, multiset(deck))
    requires DrawBalances(full[..|full| - 1], deck, rest, shuffles + extra)
    ensures DrawBalances(pile, deck, Drawn([full[|full| - 1]] + rest.hand, rest.pile, rest.shuffles), shuffles)
  {
    hide Times;
    var top, body := full[|full| - 1], full[..|full| - 1];
    var more: nat := rest.shuffles - (shuffles + extra);
    TimesAdds(extra, more, multiset(deck));
    assert extra + more == rest.shuffles - shuffles;
    MultisetOfConcat([top], rest.hand);
    DrawAlgebra(multiset{top}, multiset(rest.hand), multiset(rest.pile), multiset(body),
                Times(more, multiset(deck)), multiset(pile), Times(extra, multiset(deck)));
  }

  lemma DrawUnfolds(pile: seq<AnswerCard>, deck: seq<AnswerCard>, e: Entropy, shuffles: nat, n: nat)
    requires deck != []
    ensures n == 0 ==> DrawAnswers(pile, deck, e, shuffles, n) == Drawn([], pile, shuffles)
    ensures var full := if pile == [] then AnswerShoe(deck, e, shuffles) else pile;
            full != []
            && (n > 0 ==>
                  var rest := DrawAnswers(full[..|full| - 1], deck, e, shuffles + (if pile == [] then 1 else 0), n - 1);
                  DrawAnswers(pile, deck, e, shuffles, n) == Drawn([full[|full| - 1]] + rest.hand, rest.pile, rest.shuffles))
  {
    hide AnswerShoe;
    ShoeNotEmpty(Deck([], deck), e, shuffles);
  }

  lemma DrawAlgebra<T>(top: multiset<T>, hand: multiset<T>, left: multiset<T>, body: multiset<T>, more: multiset<T>, pile: multiset<T>, first: multiset<T>)
    requires hand + left == body + more && body + top == pile + first
    ensures top + hand + left == pile + (first + more)
  {
    assert top + hand + left == top + (hand + left) == (body + top) + more;
  }

  // A player draws n cards: the pile's loss is the hand's gain.
  lemma DealConserves(s: RoomState, id: Id, n: nat)
    requires s.deck.answers != [] && Seated(s) && Distinct(s.order) && id in s.order
    ensures var t := Dealt(s, id, n);
            Seated(t) && t.entropy.answerShuffles >= s.entropy.answerShuffles
            && Circulating(t) == Circulating(s) + Times(t.entropy.answerShuffles - s.entropy.answerShuffles, multiset(s.deck.answers))
  {
    hide DrawAnswers, HeldBy, Tabled, Without, Times;
    var d := Deal(s, n);
    var t := Dealt(s, id, n);
    DrawConserves(s.answerPile, s.deck.answers, s.entropy, s.entropy.answerShuffles, n);
    WithoutKeeps(s.order, id);
    HeldWithout(s.players, s.submissions, s.order, id);
    HeldWithout(t.players, t.submissions, t.order, id);
    HeldSame(s.players, s.submissions, t.players, t.submissions, Without(s.order, id));
    MultisetOfConcat(s.players[id].hand, d.hand);
    DealAlgebra(multiset(d.hand), multiset(d.pile), multiset(s.answerPile),
                Times(d.shuffles - s.entropy.answerShuffles, multiset(s.deck.answers)),
                HeldBy(s.players, s.submissions, Without(s.order, id)), multiset(s.players[id].hand), Tabled(s.submissions, id));
  }

  ghost function Dealt(s: RoomState, id: Id, n: nat): RoomState
    requires s.deck.answers != [] && id in s.players
  {
    AfterDeal(s, Deal(s, n)).(players := s.players[id := s.players[id].(hand := s.players[id].hand + Deal(s, n).hand)])
  }

  lemma DealAlgebra<T>(drawn: multiset<T>, left: multiset<T>, pile: multiset<T>, decks: multiset<T>,
                       others: multiset<T>, hand: multiset<T>, table: multiset<T>)
    requires drawn + left == pile + decks
    ensures left + (others + ((hand + drawn) + table)) == pile + (others + (hand + table)) + decks
  {
    assert left + (others + ((hand + drawn) + table)) == (drawn + left) + (others + (hand + table));
  }

  lemma RefillOneConserves(s: RoomState, id: Id)
    requires s.deck.answers != [] && Seated(s) && Distinct(s.order) && id in s.order
    ensures var t := RefillOne(s, id);
            Seated(t) && t.deck == s.deck && t.order == s.order && t.players.Keys == s.players.Keys
            && t.entropy.answerShuffles >= s.entropy.answerShuffles
            && Circulating(t) == Circulating(s) + Times(t.entropy.answerShuffles - s.entropy.answerShuffles, multiset(s.deck.answers))
  {
    hide DrawAnswers, HeldBy, Circulating, Times;
    NoCopies(multiset(s.deck.answers));
    if |s.players[id].hand| < HAND_SIZE {
      DealConserves(s, id, HAND_SIZE - |s.players[id].hand|);
    }
  }

  lemma {:induction false} RefillConserves(s: RoomState, ids: seq<Id>)
    requires s.deck.answers != [] && Seated(s) && Distinct(s.order) && forall id :: id in ids ==> id in s.order
    ensures var t := RefillAll(s, ids);
            Seated(t) && t.entropy.answerShuffles >= s.entropy.answerShuffles
            && Circulating(t) == Circulating(s) + Times(t.entropy.answerShuffles - s.entropy.answerShuffles, multiset(s.deck.answers))
    decreases |ids|
  {
    hide RefillOne, Circulating, Times;
    NoCopies(multiset(s.deck.answers));
    if ids != [] {
      var m := RefillOne(s, ids[0]);
      RefillOneConserves(s, ids[0]);
      RefillConserves(m, ids[1..]);
      var t := RefillAll(m, ids[1..]);
      TimesAdds(m.entropy.answerShuffles - s.entropy.answerShuffles,
                t.entropy.answerShuffles - m.entropy.answerShuffles, multiset(s.deck.answers));
      MovedAcross(Circulating(s), Times(m.entropy.answerShuffles - s.entropy.answerShuffles, multiset(s.deck.answers)),
                  Times(t.entropy.answerShuffles - m.entropy.answerShuffles, multiset(s.deck.answers)), multiset{});
    }
  }

  lemma NoCopies(m: multiset<AnswerCard>)
    ensures Times(0, m) == multiset{}
  {
  }

  // --- one command ---

  // From s to t nothing left the room, and only shuffles added cards.
  ghost predicate Kept(s: RoomState, t: RoomState)
    requires Seated(s) && Seated(t)
  {
    t.deck == s.deck && t.entropy.answerShuffles >= s.entropy.answerShuffles
    && Circulating(t) == Circulating(s) + Times(t.entropy.answerShuffles - s.entropy.answerShuffles, multiset(s.deck.answers))
  }

  lemma KeptTwice(a: RoomState, b: RoomState, c: RoomState)
    requires Seated(a) && Seated(b) && Seated(c) && Kept(a, b) && Kept(b, c)
    ensures Kept(a, c)
  {
    hide Circulating, Times;
    var m := multiset(a.deck.answers);
    TimesAdds(b.entropy.answerShuffles - a.entropy.answerShuffles, c.entropy.answerShuffles - b.entropy.answerShuffles, m);
    MovedAcross(Circulating(a), Times(b.entropy.answerShuffles - a.entropy.answerShuffles, m),
                Times(c.entropy.answerShuffles - b.entropy.answerShuffles, m), multiset{});
  }

  // The same cards in the same places, or back in the hand they were played from.
  lemma SamePlaces(s: RoomState, t: RoomState)
    requires Seated(s) && t.order == s.order && t.players.Keys == s.players.Keys
    requires t.answerPile == s.answerPile && t.deck == s.deck && t.entropy.answerShuffles == s.entropy.answerShuffles
    requires forall id :: id in s.players ==> Held(t.players, t.submissions, id) == Held(s.players, s.submissions, id)
    ensures Seated(t) && Kept(s, t)
  {
    hide Held, Times;
    HeldSame(s.players, s.submissions, t.players, t.submissions, s.order);
    NoCopies(multiset(s.deck.answers));
  }

  lemma AddPlayerCards(s: RoomState, name: string, isComputer: bool, now: int)
    requires Good(s)
    ensures var t := AddPlayer(s, name, isComputer, now); Seated(t) && Kept(s, t)
  {
    hide DrawAnswers, Limits, Roster, Connections, Table, JudgeFlags, SevenCards, Timers, ComputersDue, RoundShape, Scores, DeckOk;
    hide Times, HeldBy, HasSubmission;
    CoreFacts(s);
    var d := Deal(s, HAND_SIZE);
    var t := AddPlayer(s, name, isComputer, now);
    var pid := s.entropy.nextId;
    DrawConserves(s.answerPile, s.deck.answers, s.entropy, s.entropy.answerShuffles, HAND_SIZE);
    TableAdds(s.players, s.submissions, s.entropy.nextId, t.players[pid], t.entropy.nextId);
    HeldSame(s.players, s.submissions, t.players, t.submissions, s.order);
    HeldConcat(t.players, t.submissions, s.order, pid);
    var decks := Times(d.shuffles - s.entropy.answerShuffles, multiset(s.deck.answers));
    AddAlgebra(multiset(d.hand), multiset(d.pile), multiset(s.answerPile), decks, HeldBy(s.players, s.submissions, s.order));
  }

  lemma AddAlgebra<T>(drawn: multiset<T>, left: multiset<T>, pile: multiset<T>, decks: multiset<T>, others: multiset<T>)
    requires drawn + left == pile + decks
    ensures left + (others + drawn) == pile + others + decks
  {
    assert left + (others + drawn) == (drawn + left) + others;
  }

  lemma UndoneFrame(s: RoomState, player: Id, now: int)
    requires Seated(s) && Distinct(s.order)
    ensures var t := UndoJoin(s, player, now);
            t == s || (player in s.players && s.phase == Lobby
                       && t.answerPile == s.answerPile + s.players[player].hand && t.players == s.players - {player}
                       && t.order == Without(s.order, player) && t.submissions == s.submissions
                       && t.deck == s.deck && t.entropy == s.entropy && t.contentTier == s.contentTier)
  {
    hide Without, FirstConnectedHuman, Persist;
  }

  lemma UndoJoinCards(s: RoomState, player: Id, now: int)
    requires Valid(s)
    ensures var t := UndoJoin(s, player, now); Seated(t) && Kept(s, t)
  {
    hide Core, Stage, Times, HeldBy, Without, UndoJoin, HasSubmission, Tabled, Persist;
    PartsOf(s);
    CoreFacts(s);
    UndoneFrame(s, player, now);
    NoCopies(multiset(s.deck.answers));
    var t := UndoJoin(s, player, now);
    if t != s {
      WithoutKeeps(s.order, player);
      HeldWithout(s.players, s.submissions, s.order, player);
      HeldSame(s.players, s.submissions, t.players, t.submissions, t.order);
      LobbyTable(s, player);
      MultisetOfConcat(s.answerPile, s.players[player].hand);
    }
  }

  lemma LobbyTable(s: RoomState, player: Id)
    requires Good(s) && s.phase == Lobby
    ensures Tabled(s.submissions, player) == multiset{}
  {
  }

  lemma RemovePlayerCards(s: RoomState, player: Id)
    requires Core(s) && player in s.players
    ensures var t := RemovePlayer(s, player); Seated(t) && Kept(s, t)
  {
    hide Limits, Roster, Connections, Table, JudgeFlags, SevenCards, DeckOk, Times, HeldBy, Without, FirstConnectedHuman, FirstHuman;
    hide CursorAfter, SubmissionKeysOf, CardPlayed, HasSubmission;
    CoreFacts(s);
    NoCopies(multiset(s.deck.answers));
    var t := RemovePlayer(s, player);
    WithoutKeeps(s.order, player);
    AuthorsDiffer(s);
    HeldWithout(s.players, s.submissions, s.order, player);
    OthersKeepTheirs(s.players, s.submissions, player, t.order);
    var live := if HasSubmission(s.submissions, player) then [CardPlayed(s.submissions, player)] else [];
    MultisetOfConcat(s.answerPile + s.players[player].hand, live);
    MultisetOfConcat(s.answerPile, s.players[player].hand);
    assert multiset(live) == Tabled(s.submissions, player);
  }

  // A player whose submissions carry the same cards in two tables has the same card down.
  lemma SamePlayed(subs: map<Id, Submission>, subs': map<Id, Submission>, id: Id)
    requires OneEach(subs)
    requires forall k :: k in subs' && subs'[k].playerId == id <==> k in subs && subs[k].playerId == id
    requires forall k :: k in subs && subs[k].playerId == id ==> subs'[k].answer == subs[k].answer
    ensures HasSubmission(subs', id) <==> HasSubmission(subs, id)
    ensures Tabled(subs', id) == Tabled(subs, id)
  {
    if HasSubmission(subs, id) {
      var k :| k in subs && subs[k].playerId == id;
      assert k in subs' && subs'[k].playerId == id;
    }
  }

  lemma OthersKeepTheirs(players: map<Id, Player>, subs: map<Id, Submission>, player: Id, ids: seq<Id>)
    requires OneEach(subs) && player !in ids && forall id :: id in ids ==> id in players
    ensures HeldBy(players - {player}, subs - SubmissionKeysOf(subs, player), ids) == HeldBy(players, subs, ids)
  {
    hide HeldBy, Tabled;
    var rest := subs - SubmissionKeysOf(subs, player);
    forall id | id in ids
      ensures Held(players - {player}, rest, id) == Held(players, subs, id)
    {
      SamePlayed(subs, rest, id);
    }
    HeldSame(players, subs, players - {player}, rest, ids);
  }

  lemma AuthorsDiffer(s: RoomState)
    requires Table(s.players, s.submissions, s.entropy.nextId)
    ensures OneEach(s.submissions)
  {
  }

  // A phase change, a touch or a round of scheduling moves no card.
  lemma PhaseCards(s: RoomState, p: Phase, seconds: int, now: int)
    requires Seated(s)
    ensures var t := SetPhase(s, p, seconds, now); Seated(t) && Kept(s, t)
  {
    hide Held;
    SamePlaces(s, SetPhase(s, p, seconds, now));
  }

  lemma TouchCards(s: RoomState, now: int)
    requires Seated(s)
    ensures Seated(Touch(s, now)) && Kept(s, Touch(s, now))
  {
    hide Held, Persist;
    SamePlaces(s, Touch(s, now));
  }

  lemma ScheduleCards(s: RoomState)
    requires Seated(s)
    ensures Seated(ScheduleComputerTurns(s)) && Kept(s, ScheduleComputerTurns(s))
  {
    hide Held, ComputerTurns;
    SamePlaces(s, ScheduleComputerTurns(s));
  }

  lemma ReturnedCards(s: RoomState)
    requires Seated(s)
    ensures Seated(ReturnCards(s)) && Kept(s, ReturnCards(s))
  {
    hide HasSubmission, CardPlayed;
    NobodySubmitted();
    forall id | id in s.players
      ensures Held(ReturnCards(s).players, map[], id) == Held(s.players, s.submissions, id)
    {
      if HasSubmission(s.submissions, id) {
        MultisetOfConcat(s.players[id].hand, [CardPlayed(s.submissions, id)]);
      }
    }
    SamePlaces(s, ReturnCards(s));
  }

  lemma ClearedJudgeCards(s: RoomState)
    requires Seated(s)
    ensures Seated(ClearJudge(s)) && Kept(s, ClearJudge(s))
  {
    hide Tabled;
    SamePlaces(s, ClearJudge(s));
  }

  lemma BeginJudgingCards(s: RoomState, now: int)
    requires Seated(s)
    ensures Seated(BeginJudging(s, now)) && Kept(s, BeginJudging(s, now))
  {
    hide Kept, Touch, SetPhase;
    var p, seconds := if |s.submissions| == 0 then Scoring else Judging, if |s.submissions| == 0 then 0 else JUDGE_SECONDS;
    var t := SetPhase(s, p, seconds, now);
    PhaseCards(s, p, seconds, now);
    TouchCards(t, now);
    KeptTwice(s, t, Touch(t, now));
  }

  lemma RosterLossCards(s: RoomState, wasJudge: bool, now: int)
    requires Seated(s)
    ensures Seated(ApplyRosterLoss(s, wasJudge, now)) && Kept(s, ApplyRosterLoss(s, wasJudge, now))
  {
    hide Kept, SetPhase, ReturnCards, ClearJudge, BeginJudging, ScheduleComputerTurns;
    if s.phase == Lobby || s.phase == Finished {
      NothingMoved(s);
    } else if |s.order| < MIN_PLAYERS_TO_START {
      PhaseCards(s, Finished, 0, now);
    } else if wasJudge {
      var a := ReturnCards(s);
      ReturnedCards(s);
      ClearedJudgeCards(a);
      PhaseCards(ClearJudge(a), Scoring, 0, now);
      KeptTwice(s, a, ClearJudge(a));
      KeptTwice(s, ClearJudge(a), SetPhase(ClearJudge(a), Scoring, 0, now));
    } else if s.phase == Submitting && AllAnswerersSubmitted(s) {
      BeginJudgingCards(s, now);
      ScheduleCards(BeginJudging(s, now));
      KeptTwice(s, BeginJudging(s, now), ScheduleComputerTurns(BeginJudging(s, now)));
    } else if s.phase == Judging && |s.submissions| == 0 {
      PhaseCards(s, Scoring, 0, now);
    } else {
      NothingMoved(s);
    }
  }

  lemma NothingMoved(s: RoomState)
    requires Seated(s)
    ensures Kept(s, s)
  {
    NoCopies(multiset(s.deck.answers));
  }

  lemma LeaveCards(s: RoomState, player: Id, now: int)
    requires Valid(s)
    ensures Seated(Leave(s, player, now).room) && Kept(s, Leave(s, player, now).room)
  {
    hide Kept, Good, RemovePlayer, ApplyRosterLoss, Touch;
    if player in s.players {
      GoodCore(s);
      RemovePlayerCards(s, player);
      var t := RemovePlayer(s, player);
      var wasJudge := s.players[player].isJudge && (s.phase == Submitting || s.phase == Judging);
      RosterLossCards(t, wasJudge, now);
      var u := ApplyRosterLoss(t, wasJudge, now);
      TouchCards(u, now);
      KeptTwice(s, t, u);
      KeptTwice(s, u, Touch(u, now));
    } else {
      NothingMoved(s);
    }
  }

  // Playing a card moves it from the hand to the table.
  lemma CardDownCards(s: RoomState, player: Id, i: nat, now: int)
    requires Core(s) && player in s.players && !HasSubmission(s.submissions, player) && i < |s.players[player].hand|
    ensures Seated(CardDown(s, player, i, now)) && Kept(s, CardDown(s, player, i, now))
  {
    hide Limits, Roster, Connections, Table, JudgeFlags, SevenCards, DeckOk, HasSubmission, Kept, CardPlayed;
    CoreFacts(s);
    AuthorsDiffer(s);
    var t := CardDown(s, player, i, now);
    var hand := s.players[player].hand;
    OneMoved(hand, i);
    PlayedAlone(s, player, i, now);
    forall id | id in s.players
      ensures Held(t.players, t.submissions, id) == Held(s.players, s.submissions, id)
    {
    }
    SamePlaces(s, t);
  }

  lemma OneMoved<T>(s: seq<T>, i: nat)
    requires i < |s|
    ensures multiset(s[..i] + s[i + 1..]) + multiset{s[i]} == multiset(s)
  {
    assert s == s[..i] + [s[i]] + s[i + 1..];
  }

  lemma PlayedAlone(s: RoomState, player: Id, i: nat, now: int)
    requires Core(s) && player in s.players && !HasSubmission(s.submissions, player) && i < |s.players[player].hand|
    ensures var t := CardDown(s, player, i, now);
            Tabled(t.submissions, player) == multiset{s.players[player].hand[i]}
            && Tabled(s.submissions, player) == multiset{}
            && forall id :: id != player ==> Tabled(t.submissions, id) == Tabled(s.submissions, id)
  {
    hide Limits, Roster, Connections, JudgeFlags, SevenCards, DeckOk;
    CoreFacts(s);
    AuthorsDiffer(s);
    var t := CardDown(s, player, i, now);
    assert t.submissions[s.entropy.nextId].playerId == player;
    assert forall k :: k in t.submissions && t.submissions[k].playerId == player ==> k == s.entropy.nextId;
    forall id | id != player
      ensures Tabled(t.submissions, id) == Tabled(s.submissions, id)
    {
      SamePlayed(s.submissions, t.submissions, id);
    }
  }

  lemma PlayCardCards(s: RoomState, player: Id, answerId: string, now: int)
    requires Core(s)
    ensures Seated(s) && Seated(PlayCard(s, player, answerId, now).room) && Kept(s, PlayCard(s, player, answerId, now).room)
  {
    hide Limits, Roster, Connections, Table, JudgeFlags, SevenCards, DeckOk, HasSubmission, Kept, BeginJudging;
    CoreFacts(s);
    NothingMoved(s);
    if PlayCard(s, player, answerId, now).error.None? {
      var i := CardIndex(s.players[player].hand, answerId);
      var t := CardDown(s, player, i, now);
      CardDownCards(s, player, i, now);
      if AllAnswerersSubmitted(t) {
        BeginJudgingCards(t, now);
        KeptTwice(s, t, BeginJudging(t, now));
      }
    }
  }

  // Scheduling the computers and touching the room, as most commands end.
  lemma WrapUpCards(s: RoomState, t: RoomState, now: int)
    requires Seated(s) && Seated(t) && Kept(s, t)
    ensures var u := Touch(ScheduleComputerTurns(t), now); Seated(u) && Kept(s, u)
    ensures Seated(ScheduleComputerTurns(t)) && Kept(s, ScheduleComputerTurns(t))
    ensures Seated(Touch(t, now)) && Kept(s, Touch(t, now))
  {
    hide Kept, Touch, ScheduleComputerTurns;
    ScheduleCards(t);
    TouchCards(t, now);
    TouchCards(ScheduleComputerTurns(t), now);
    KeptTwice(s, t, Touch(t, now));
    KeptTwice(s, t, ScheduleComputerTurns(t));
    KeptTwice(s, ScheduleComputerTurns(t), Touch(ScheduleComputerTurns(t), now));
  }

  lemma TakenCards(s: RoomState, c: Callback)
    requires Seated(s)
    ensures Seated(Taken(s, c)) && Kept(s, Taken(s, c))
  {
    hide Held;
    SamePlaces(s, Taken(s, c));
  }

  lemma AwardCards(s: RoomState, sid: Id, now: int)
    requires Core(s) && sid in s.submissions
    ensures Seated(s) && Seated(Award(s, sid, now)) && Kept(s, Award(s, sid, now))
  {
    hide Limits, Roster, Connections, Table, JudgeFlags, SevenCards, DeckOk, HasSubmission, Kept, SetPhase, Touch, Tabled;
    CoreFacts(s);
    AuthorSeated(s, sid);
    AuthorsDiffer(s);
    var t := Scored(s, sid);
    forall id | id in s.players
      ensures Held(t.players, t.submissions, id) == Held(s.players, s.submissions, id)
    {
      SamePlayed(s.submissions, t.submissions, id);
    }
    SamePlaces(s, t);
    var p := if t.players[s.submissions[sid].playerId].score >= s.scoreLimit then Finished else Scoring;
    PhaseCards(t, p, 0, now);
    TouchCards(SetPhase(t, p, 0, now), now);
    KeptTwice(s, t, SetPhase(t, p, 0, now));
    KeptTwice(s, SetPhase(t, p, 0, now), Touch(SetPhase(t, p, 0, now), now));
  }

  lemma DeadlineCards(s: RoomState, seqNo: nat, pick: Id, now: int)
    requires Core(s) && (s.phase == Judging ==> pick in s.submissions)
    ensures Seated(s) && Seated(OnDeadline(s, seqNo, pick, now)) && Kept(s, OnDeadline(s, seqNo, pick, now))
  {
    hide Core, Kept, Award, BeginJudging, ScheduleComputerTurns, Touch;
    CoreFacts(s);
    NothingMoved(s);
    if s.phase == Submitting {
      BeginJudgingCards(s, now);
      WrapUpCards(s, BeginJudging(s, now), now);
    } else if s.phase == Judging {
      AwardCards(s, pick, now);
      WrapUpCards(s, Award(s, pick, now), now);
    }
  }

  lemma ComputerAnswerCards(s: RoomState, player: Id, seqNo: nat, card: nat, now: int)
    requires Core(s) && (ComputerMayAnswer(s, player, seqNo) ==> card < |s.players[player].hand|)
    ensures Seated(s)
    ensures var t := SubmitComputerAnswer(s, player, seqNo, card, now); Seated(t) && Kept(s, t)
  {
    hide Core, Kept, PlayCard, ScheduleComputerTurns, Touch;
    CoreFacts(s);
    NothingMoved(s);
    if ComputerMayAnswer(s, player, seqNo) {
      var answerId := s.players[player].hand[card].id;
      PlayCardCards(s, player, answerId, now);
      WrapUpCards(s, PlayCard(s, player, answerId, now).room, now);
    }
  }

  lemma ComputerVerdictCards(s: RoomState, player: Id, seqNo: nat, pick: Id, now: int)
    requires Core(s) && (ComputerMayJudge(s, player, seqNo) ==> pick in s.submissions)
    ensures Seated(s)
    ensures var t := PickComputerWinner(s, player, seqNo, pick, now); Seated(t) && Kept(s, t)
  {
    hide Core, Kept, Award, ScheduleComputerTurns, Touch;
    CoreFacts(s);
    NothingMoved(s);
    if ComputerMayJudge(s, player, seqNo) {
      AwardCards(s, pick, now);
      WrapUpCards(s, Award(s, pick, now), now);
    }
  }

  lemma ConnectionCards(s: RoomState, t: RoomState)
    requires Seated(s) && t.players.Keys == s.players.Keys
    requires forall id :: id in s.players ==> t.players[id] == s.players[id].(connected := t.players[id].connected)
    requires t == s.(players := t.players, clients := t.clients, hostID := t.hostID)
    ensures Seated(t) && Kept(s, t)
  {
    hide Tabled;
    SamePlaces(s, t);
  }

  lemma AttachCards(s: RoomState, player: Id, token: Id, conn: Id, now: int)
    requires Valid(s)
    ensures Seated(Attach(s, player, token, conn, now).room) && Kept(s, Attach(s, player, token, conn, now).room)
  {
    hide Good, Kept, Touch, FirstConnectedHuman, Circulating;
    NothingMoved(s);
    if Attach(s, player, token, conn, now).error.None? {
      var players := s.players[player := s.players[player].(connected := true)];
      var host := if s.hostID !in players || !players[s.hostID].connected
                  then FirstConnectedHuman(players, s.order) else s.hostID;
      var conns := if player in s.clients then s.clients[player] else {};
      var t := s.(players := players, clients := s.clients[player := conns + {conn}], hostID := host);
      ConnectionCards(s, t);
      WrapUpCards(s, t, now);
    }
  }

  lemma DetachCards(s: RoomState, player: Id, conn: Id, now: int)
    requires Valid(s)
    ensures Seated(Detach(s, player, conn, now)) && Kept(s, Detach(s, player, conn, now))
  {
    hide Good, Kept, Touch, FirstConnectedHuman;
    NothingMoved(s);
    WrapUpCards(s, s, now);
    if player in s.clients {
      var left := s.clients[player] - {conn};
      var players := if player in s.players then s.players[player := s.players[player].(connected := false)] else s.players;
      var host := if player == s.hostID then FirstConnectedHuman(players, s.order) else s.hostID;
      var t := if left != {} then s.(clients := s.clients[player := left])
               else s.(clients := s.clients - {player}, players := players, hostID := host);
      ConnectionCards(s, t);
      WrapUpCards(s, t, now);
    }
  }

  // --- commands that discard ---

  // From s to t the cards d left the room, and only shuffles added cards.
  ghost predicate Spent(s: RoomState, t: RoomState, d: multiset<AnswerCard>)
    requires Seated(s) && Seated(t)
  {
    t.deck == s.deck && t.entropy.answerShuffles >= s.entropy.answerShuffles
    && Circulating(t) + d == Circulating(s) + Times(t.entropy.answerShuffles - s.entropy.answerShuffles, multiset(s.deck.answers))
  }

  lemma SpentThenKept(a: RoomState, b: RoomState, c: RoomState, d: multiset<AnswerCard>)
    requires Seated(a) && Seated(b) && Seated(c) && Spent(a, b, d) && Kept(b, c)
    ensures Spent(a, c, d)
  {
    hide Circulating, Times;
    SpentTwice(a, b, c, d, multiset{});
    assert d + multiset{} == d;
  }

  lemma KeptThenSpent(a: RoomState, b: RoomState, c: RoomState, d: multiset<AnswerCard>)
    requires Seated(a) && Seated(b) && Seated(c) && Kept(a, b) && Spent(b, c, d)
    ensures Spent(a, c, d)
  {
    hide Circulating, Times;
    SpentTwice(a, b, c, multiset{}, d);
    assert multiset{} + d == d;
  }

  lemma TableSwept(s: RoomState, t: RoomState)
    requires Seated(s) && t.order == s.order && t.players.Keys == s.players.Keys && t.submissions == map[]
    requires t.answerPile == s.answerPile && t.deck == s.deck && t.entropy.answerShuffles == s.entropy.answerShuffles
    requires forall id :: id in s.players ==> t.players[id].hand == s.players[id].hand
    ensures Seated(t) && Spent(s, t, OnTable(s.submissions, s.order))
  {
    hide Tabled, Times, HeldBy, OnTable;
    TableCleared(s.players, s.submissions, s.order);
    HeldSame(s.players, map[], t.players, map[], s.order);
    NoCopies(multiset(s.deck.answers));
  }

  lemma RefillCards(s: RoomState, ids: seq<Id>)
    requires s.deck.answers != [] && Seated(s) && Distinct(s.order) && forall id :: id in ids ==> id in s.order
    ensures Seated(RefillAll(s, ids)) && Kept(s, RefillAll(s, ids))
  {
    hide Circulating, Times, RefillAll;
    RefillAllFrame(s, ids);
    RefillConserves(s, ids);
  }

  lemma BeginRoundCards(s: RoomState, now: int)
    requires Core(s) && s.order != [] && 0 <= s.judgeIndex < |s.order|
    ensures Seated(s) && s.deck.Playable()
    ensures var t := ScheduleComputerTurns(BeginRound(s, now)); Seated(t) && Spent(s, t, OnTable(s.submissions, s.order))
  {
    hide Limits, Roster, Connections, Table, JudgeFlags, SevenCards, DeckOk, Kept, Spent, RefillAll, SetPhase, Touch, ScheduleComputerTurns, PromptShoe;
    CoreFacts(s);
    var t := JudgeNamed(s);
    TableSwept(s, t);
    RefillCards(t, t.order);
    RefillAllFrame(t, t.order);
    var u := RefillAll(t, t.order);
    PhaseCards(u, Submitting, u.submitSecs, now);
    var v := SetPhase(u, Submitting, u.submitSecs, now);
    TouchCards(v, now);
    KeptTwice(u, v, Touch(v, now));
    WrapUpCards(u, Touch(v, now), now);
    KeptTwice(t, u, ScheduleComputerTurns(Touch(v, now)));
    SpentThenKept(s, t, ScheduleComputerTurns(Touch(v, now)), OnTable(s.submissions, s.order));
  }

  lemma CursorCards(s: RoomState, cursor: int)
    requires Seated(s)
    ensures Seated(s.(judgeIndex := cursor)) && Kept(s, s.(judgeIndex := cursor))
  {
    hide Held;
    SamePlaces(s, s.(judgeIndex := cursor));
  }

  lemma {:induction false} SeatComputersCards(s: RoomState, now: int)
    requires Valid(s) && s.phase == Lobby && s.hostID != 0
    ensures s.deck.Playable()
    ensures var r := SeatComputers(s, now).room; Seated(r) && Kept(s, r)
    decreases MIN_PLAYERS_TO_START - |s.order|
  {
    hide Core, Stage, Kept, AddPlayer;
    ValidFacts(s);
    CoreFacts(s);
    NothingMoved(s);
    if |s.order| < MIN_PLAYERS_TO_START {
      var name := NextComputerName(NamesInUse(s));
      var t := AddPlayer(s, name, true, now);
      AddPlayerKeeps(s, name, true, now);
      AddPlayerFrame(s, name, true, now);
      AddPlayerCards(s, name, true, now);
      SeatComputersCards(t, now);
      KeptTwice(s, t, SeatComputers(t, now).room);
    }
  }

  lemma LobbyTableEmpty(s: RoomState)
    requires Good(s) && s.phase == Lobby
    ensures s.submissions == map[] && OnTable(s.submissions, s.order) == multiset{}
  {
    EmptyOnTable(s.order);
  }

  lemma {:induction false} EmptyOnTable(ids: seq<Id>)
    ensures OnTable(map[], ids) == multiset{}
  {
    NobodySubmitted();
    if ids != [] {
      EmptyOnTable(ids[1..]);
    }
  }

  lemma NextRoundCards(s: RoomState, caller: Id, now: int)
    requires Valid(s) && s.order != []
    requires s.deck.Playable() && NextRound(s, caller, now).error.None?
    ensures var t := NextRound(s, caller, now).room; Seated(t) && Spent(s, t, OnTable(s.submissions, s.order))
  {
    hide Limits, Roster, Connections, Table, JudgeFlags, SevenCards, DeckOk, Timers, ComputersDue, Scores, Kept, Spent, BeginRound, ScheduleComputerTurns;
    CoreFacts(s);
    var cursor := (s.judgeIndex + 1) % |s.order|;
    ModInRange(s.judgeIndex + 1, |s.order|);
    CoreIgnoresCursor(s, cursor);
    CursorCards(s, cursor);
    BeginRoundCards(s.(judgeIndex := cursor), now);
    KeptThenSpent(s, s.(judgeIndex := cursor), NextRound(s, caller, now).room, OnTable(s.submissions, s.order));
  }

  lemma SpentNothing(s: RoomState, t: RoomState)
    requires Seated(s) && Seated(t) && Spent(s, t, multiset{})
    ensures Kept(s, t)
  {
  }

  lemma StartGameCards(s: RoomState, caller: Id, now: int)
    requires Valid(s)
    ensures s.deck.Playable()
    ensures var t := StartGame(s, caller, now).room; Seated(t) && Kept(s, t)
  {
    hide Limits, Roster, Connections, Table, JudgeFlags, SevenCards, DeckOk, Timers, ComputersDue, Scores, Kept, Spent, BeginRound, ScheduleComputerTurns;
    CoreFacts(s);
    NothingMoved(s);
    if StartGame(s, caller, now).error.None? {
      LobbyTableEmpty(s);
      CoreIgnoresCursor(s, 0);
      CursorCards(s, 0);
      BeginRoundCards(s.(judgeIndex := 0), now);
      KeptThenSpent(s, s.(judgeIndex := 0), StartGame(s, caller, now).room, multiset{});
      SpentNothing(s, StartGame(s, caller, now).room);
    }
  }

  lemma StartComputerGameCards(s: RoomState, caller: Id, now: int)
    requires Valid(s) && caller != 0
    ensures s.deck.Playable()
    ensures var t := StartComputerGame(s, caller, now).room; Seated(t) && Kept(s, t)
  {
    hide Limits, Roster, Connections, Table, JudgeFlags, SevenCards, DeckOk, Timers, ComputersDue, Scores, Kept, Spent, BeginRound;
    hide ScheduleComputerTurns, SeatComputers, RoundShape;
    CoreFacts(s);
    NothingMoved(s);
    if caller == s.hostID && s.phase == Lobby {
      SeatComputersKeeps(s, now);
      SeatComputersCards(s, now);
      var t := SeatComputers(s, now).room;
      CoreFacts(t);
      LobbyTableEmpty(t);
      var cursor := FirstComputerIndex(t.players, t.order, 0);
      ComputerIndexInRange(t.players, t.order, 0);
      CoreIgnoresCursor(t, cursor);
      CursorCards(t, cursor);
      BeginRoundCards(t.(judgeIndex := cursor), now);
      var r := StartComputerGame(s, caller, now).room;
      KeptThenSpent(t, t.(judgeIndex := cursor), r, multiset{});
      SpentNothing(t, r);
      KeptTwice(s, t, r);
    }
  }

  lemma PlayAgainCards(s: RoomState, caller: Id, visit: seq<Id>, now: int)
    requires Valid(s) && s.deck.Playable() && forall id :: id in visit <==> id in s.players
    requires PlayAgain(s, caller, visit, now).error.None?
    ensures var t := PlayAgain(s, caller, visit, now).room; Seated(t) && Spent(s, t, OnTable(s.submissions, s.order))
  {
    hide Limits, Roster, Connections, Table, JudgeFlags, SevenCards, DeckOk, Timers, ComputersDue, Scores, RoundShape, Kept, Spent, RefillAll, SetPhase, Touch;
    CoreFacts(s);
    var t := Wiped(s);
    TableSwept(s, t);
    RefillCards(t, visit);
    RefillAllFrame(t, visit);
    var u := RefillAll(t, visit);
    PhaseCards(u, Lobby, 0, now);
    TouchCards(SetPhase(u, Lobby, 0, now), now);
    var r := Touch(SetPhase(u, Lobby, 0, now), now);
    KeptTwice(u, SetPhase(u, Lobby, 0, now), r);
    KeptTwice(t, u, r);
    SpentThenKept(s, t, r, OnTable(s.submissions, s.order));
  }

  lemma EndGameCards(s: RoomState, caller: Id, now: int)
    requires Valid(s)
    ensures Seated(EndGame(s, caller, now).room) && Kept(s, EndGame(s, caller, now).room)
  {
    hide Good, Kept, SetPhase, Touch;
    NothingMoved(s);
    if EndGame(s, caller, now).error.None? {
      PhaseCards(s, Finished, 0, now);
      WrapUpCards(s, SetPhase(s, Finished, 0, now), now);
    }
  }

  lemma SkipPromptCards(s: RoomState, caller: Id, now: int)
    requires Valid(s) && s.deck.Playable()
    ensures Seated(SkipPrompt(s, caller, now).room) && Kept(s, SkipPrompt(s, caller, now).room)
  {
    hide Good, Kept, SetPhase, Touch, ScheduleComputerTurns, PromptShoe, CardPlayed, HasSubmission;
    NothingMoved(s);
    if SkipPrompt(s, caller, now).error.None? {
      var a := ReturnCards(s);
      var b := DrawPrompt(a);
      ReturnedCards(s);
      SamePlaces(a, b);
      KeptTwice(s, a, b);
      PhaseCards(b, Submitting, b.submitSecs, now);
      KeptTwice(s, b, SetPhase(b, Submitting, b.submitSecs, now));
      WrapUpCards(s, SetPhase(b, Submitting, b.submitSecs, now), now);
    }
  }

  // --- a new tier starts the count afresh ---

  lemma {:induction false} RedealCards(s: RoomState, ids: seq<Id>)
    requires s.deck.answers != [] && s.submissions == map[] && Seated(s) && Distinct(s.order) && Distinct(ids)
    requires forall id :: id in ids ==> id in s.order
    ensures forall id :: id in ids ==> id in s.players
    ensures var t := RedealAll(s, ids); Seated(t) && Spent(s, t, HeldBy(s.players, map[], ids))
    decreases |ids|
  {
    hide DrawAnswers, Spent, Held;
    RedealAllFrame(s, ids);
    if ids == [] {
      NothingMoved(s);
      KeptIsSpent(s, s);
    } else {
      var id := ids[0];
      var m := Redealt(s, id);
      RedealOne(s, id);
      RedealCards(m, ids[1..]);
      NobodySubmitted();
      EmptyHanded(s.players, id);
      HeldElsewhere(s, m, id, ids[1..]);
      SpentTwice(s, m, RedealAll(m, ids[1..]), multiset(s.players[id].hand), HeldBy(s.players, map[], ids[1..]));
    }
  }

  lemma KeptIsSpent(s: RoomState, t: RoomState)
    requires Seated(s) && Seated(t) && Kept(s, t)
    ensures Spent(s, t, multiset{})
  {
  }

  lemma EmptyHanded(players: map<Id, Player>, id: Id)
    requires id in players
    ensures Held(players, map[], id) == multiset(players[id].hand)
  {
    NobodySubmitted();
  }

  lemma HeldElsewhere(s: RoomState, m: RoomState, id: Id, ids: seq<Id>)
    requires id !in ids && (forall x :: x in ids ==> x in s.players && x in m.players)
    requires forall x :: x in s.players && x != id ==> x in m.players && m.players[x] == s.players[x]
    ensures HeldBy(m.players, map[], ids) == HeldBy(s.players, map[], ids)
  {
    HeldSame(s.players, map[], m.players, map[], ids);
  }

  lemma SpentTwice(a: RoomState, b: RoomState, c: RoomState, d: multiset<AnswerCard>, e: multiset<AnswerCard>)
    requires Seated(a) && Seated(b) && Seated(c) && Spent(a, b, d) && Spent(b, c, e)
    ensures Spent(a, c, d + e)
  {
    hide Circulating, Times;
    var m := multiset(a.deck.answers);
    TimesAdds(b.entropy.answerShuffles - a.entropy.answerShuffles, c.entropy.answerShuffles - b.entropy.answerShuffles, m);
    SpendAlgebra(Circulating(a), Circulating(b), Circulating(c), d, e,
                 Times(b.entropy.answerShuffles - a.entropy.answerShuffles, m), Times(c.entropy.answerShuffles - b.entropy.answerShuffles, m));
  }

  lemma SpendAlgebra<T>(a: multiset<T>, b: multiset<T>, c: multiset<T>, d: multiset<T>, e: multiset<T>, x: multiset<T>, y: multiset<T>)
    requires b + d == a + x && c + e == b + y
    ensures c + (d + e) == a + (x + y)
  {
    assert c + (d + e) == (c + e) + d == (b + d) + y;
  }

  // One player's hand replaced by a fresh one.
  ghost function Redealt(s: RoomState, id: Id): RoomState
    requires s.deck.answers != [] && id in s.players
  {
    var d := Deal(s, HAND_SIZE);
    AfterDeal(s, d).(players := s.players[id := s.players[id].(hand := d.hand)])
  }

  lemma RedealOne(s: RoomState, id: Id)
    requires s.deck.answers != [] && s.submissions == map[] && Seated(s) && Distinct(s.order) && id in s.order
    ensures var t := Redealt(s, id); Seated(t) && Spent(s, t, multiset(s.players[id].hand))
  {
    hide DrawAnswers, HeldBy, Without, Times, Tabled;
    var d := Deal(s, HAND_SIZE);
    var t := Redealt(s, id);
    DrawConserves(s.answerPile, s.deck.answers, s.entropy, s.entropy.answerShuffles, HAND_SIZE);
    WithoutKeeps(s.order, id);
    HeldWithout(s.players, s.submissions, s.order, id);
    HeldWithout(t.players, t.submissions, t.order, id);
    HeldSame(s.players, s.submissions, t.players, t.submissions, Without(s.order, id));
    SwapAlgebra(multiset(d.hand), multiset(d.pile), multiset(s.answerPile),
                Times(d.shuffles - s.entropy.answerShuffles, multiset(s.deck.answers)),
                HeldBy(s.players, s.submissions, Without(s.order, id)), multiset(s.players[id].hand), Tabled(s.submissions, id));
  }

  lemma SwapAlgebra<T>(drawn: multiset<T>, left: multiset<T>, pile: multiset<T>, decks: multiset<T>,
                       others: multiset<T>, hand: multiset<T>, table: multiset<T>)
    requires drawn + left == pile + decks
    ensures (left + (others + (drawn + table))) + hand == (pile + (others + (hand + table))) + decks
  {
    assert (left + (others + (drawn + table))) + hand == (drawn + left) + (others + (hand + table));
  }
}
