// The answer-card account of a whole run.
module CardLedger {
  import opened Wrappers
  import opened Sequences
  import opened Cards
  import opened RoomTypes
  import opened RoomRules
  import opened RoomInvariant
  import opened RoomPreservation
  import opened RoundPreservation
  import opened RoomRuns
  import opened CardConservation

  // What has been thrown away since the tier was last chosen, and how many
  // shuffles had been made before that.
  datatype Ledger = Ledger(discarded: multiset<AnswerCard>, base: nat)

  ghost predicate Retiers(s: RoomState, e: Event)
    requires Valid(s) && CanStep(s, e.command)
  {
    e.command.UpdateSettingsCmd? && After(s, e).contentTier != s.contentTier
  }

  // Cards leave the room when a new round or a new game sweeps the table.
  ghost function Discarded(s: RoomState, e: Event): multiset<AnswerCard>
    requires Valid(s) && CanStep(s, e.command)
  {
    if (e.command.NextRoundCmd? || e.command.PlayAgainCmd?) && Step(s, e).error.None?
    then OnTable(s.submissions, s.order) else multiset{}
  }

  ghost function Book(s: RoomState, l: Ledger, e: Event): Ledger
    requires Valid(s) && CanStep(s, e.command)
  {
    if Retiers(s, e) then Ledger(multiset{}, s.entropy.answerShuffles)
    else l.(discarded := l.discarded + Discarded(s, e))
  }

  // Pile, hands, table and discards are so many whole decks.
  ghost predicate Balanced(s: RoomState, l: Ledger)
    requires Seated(s)
  {
    l.base <= s.entropy.answerShuffles
    && Circulating(s) + l.discarded == Times(s.entropy.answerShuffles - l.base, multiset(s.deck.answers))
  }

  lemma SpendingBalances(s: RoomState, t: RoomState, l: Ledger, d: multiset<AnswerCard>)
    requires Seated(s) && Seated(t) && Balanced(s, l) && Spent(s, t, d)
    ensures Balanced(t, l.(discarded := l.discarded + d))
  {
    hide Circulating, Times;
    var m := multiset(s.deck.answers);
    TimesAdds(s.entropy.answerShuffles - l.base, t.entropy.answerShuffles - s.entropy.answerShuffles, m);
    BalanceAlgebra(Circulating(s), Circulating(t), l.discarded, d, Times(s.entropy.answerShuffles - l.base, m),
                   Times(t.entropy.answerShuffles - s.entropy.answerShuffles, m));
  }

  lemma BalanceAlgebra<T>(a: multiset<T>, b: multiset<T>, before: multiset<T>, d: multiset<T>, x: multiset<T>, y: multiset<T>)
    requires a + before == x && b + d == a + y
    ensures b + (before + d) == x + y
  {
    assert b + (before + d) == (b + d) + before == (a + before) + y;
  }

  lemma SettingsCards(s: RoomState, caller: Id, settings: Option<Settings>, now: int)
    requires Valid(s)
    ensures s.fullDeck.For(Party).Playable() && s.fullDeck.For(Family).Playable()
    ensures var t := UpdateSettings(s, caller, settings, now).room;
            Seated(t)
            && (t.contentTier == s.contentTier ==> Kept(s, t))
            && (t.contentTier != s.contentTier ==> Balanced(t, Ledger(multiset{}, s.entropy.answerShuffles)))
  {
    hide Good, Kept, Balanced, ChangeTier, ClampInt, Touch;
    GoodCore(s);
    SettingsDecks(s);
    NothingMoved(s);
    if UpdateSettings(s, caller, settings, now).error.None? {
      var v := settings.value;
      var t := Tuned(s, v);
      if v.contentTier.Some? && v.contentTier.value != s.contentTier {
        NewTierCards(s, v);
        var u := ChangeTier(t, v.contentTier.value);
        TouchCards(u, now);
        TouchedTier(u, now);
        BalanceKept(u, Touch(u, now), Ledger(multiset{}, s.entropy.answerShuffles));
      } else {
        SamePlaces(s, t);
        WrapUpCards(s, t, now);
        TouchedTier(t, now);
      }
    }
  }

  lemma SettingsDecks(s: RoomState)
    requires Core(s)
    ensures s.fullDeck.For(Party).Playable() && s.fullDeck.For(Family).Playable() && Seated(s) && Distinct(s.order)
  {
  }

  lemma NewTierCards(s: RoomState, v: Settings)
    requires Good(s) && s.phase == Lobby && v.contentTier.Some?
    ensures s.fullDeck.For(v.contentTier.value).Playable() && Seated(s)
    ensures var t := ChangeTier(Tuned(s, v), v.contentTier.value);
            Seated(t) && Balanced(t, Ledger(multiset{}, s.entropy.answerShuffles)) && t.contentTier == v.contentTier.value
  {
    hide Limits, Roster, Connections, Table, JudgeFlags, SevenCards, Timers, ComputersDue, Scores, RedealAll, Circulating, Spent, Kept;
    hide AnswerShoe, PromptShoe, ClampInt, Times, HeldBy;
    CoreFacts(s);
    SettingsDecks(s);
    var tier := v.contentTier.value;
    var a := FreshPiles(Tuned(s, v).(contentTier := tier, deck := s.fullDeck.For(tier)));
    RedealAllFrame(a, a.order);
    RedealCards(a, a.order);
    FreshBalance(s, v, tier);
    RedealtBalance(a, RedealAll(a, a.order), s.entropy.answerShuffles);
  }

  lemma TouchedTier(s: RoomState, now: int)
    requires Seated(s)
    ensures Touch(s, now).contentTier == s.contentTier
  {
  }

  // Fresh piles hold one whole deck; the hands still out are not counted yet.
  ghost predicate FreshDeck(a: RoomState, base: nat)
    requires Seated(a)
  {
    a.entropy.answerShuffles == base + 1
    && Circulating(a) == multiset(a.deck.answers) + HeldBy(a.players, map[], a.order)
  }

  lemma FreshBalance(s: RoomState, v: Settings, tier: Tier)
    requires Good(s) && s.phase == Lobby
    ensures var a := FreshPiles(Tuned(s, v).(contentTier := tier, deck := s.fullDeck.For(tier)));
            Seated(a) && FreshDeck(a, s.entropy.answerShuffles)
  {
    hide Core, ClampInt, PromptShoe, HeldBy;
    CoreFacts(s);
    ShuffleIsPermutation(s.fullDeck.For(tier).answers, AnswerRoll(s.entropy, s.entropy.answerShuffles));
  }

  lemma RedealtBalance(a: RoomState, b: RoomState, base: nat)
    requires Seated(a) && Seated(b) && FreshDeck(a, base) && Spent(a, b, HeldBy(a.players, map[], a.order))
    ensures Balanced(b, Ledger(multiset{}, base))
  {
    hide Circulating, Times, HeldBy;
    var m := multiset(a.deck.answers);
    TimesAdds(1, b.entropy.answerShuffles - a.entropy.answerShuffles, m);
    OneDeck(m);
    CancelAlgebra(Circulating(b), HeldBy(a.players, map[], a.order), m, Times(b.entropy.answerShuffles - a.entropy.answerShuffles, m));
  }

  lemma OneDeck<T>(m: multiset<T>)
    ensures Times(1, m) == m
  {
    assert Times(1, m) == m + Times(0, m);
  }

  lemma CancelAlgebra<T(!new)>(c: multiset<T>, h: multiset<T>, m: multiset<T>, x: multiset<T>)
    requires c + h == (m + h) + x
    ensures c + multiset{} == m + x
  {
    forall t
      ensures c[t] == (m + x)[t]
    {
      assert (c + h)[t] == ((m + h) + x)[t];
    }
    assert c == m + x;
  }

  lemma BalanceKept(s: RoomState, t: RoomState, l: Ledger)
    requires Seated(s) && Seated(t) && Balanced(s, l) && Kept(s, t)
    ensures Balanced(t, l)
  {
    hide Circulating, Times;
    KeptIsSpent(s, t);
    SpendingBalances(s, t, l, multiset{});
    assert l.discarded + multiset{} == l.discarded;
  }

  // What one event does to the cards.
  lemma StepCards(s: RoomState, e: Event)
    requires Valid(s) && CanStep(s, e.command)
    ensures Retiers(s, e) ==> Balanced(After(s, e), Ledger(multiset{}, s.entropy.answerShuffles))
    ensures !Retiers(s, e) ==> Spent(s, After(s, e), Discarded(s, e))
  {
    hide Good, Spent, Kept, Balanced, CanStep, Step, Persist;
    if e.command.UpdateSettingsCmd? {
      SettingsStep(s, e);
    } else if e.command.NextRoundCmd? || e.command.PlayAgainCmd? {
      SweepingStep(s, e);
    } else {
      QuietCards(s, e);
      KeptIsSpent(s, After(s, e));
    }
  }

  lemma SettingsStep(s: RoomState, e: Event)
    requires Valid(s) && CanStep(s, e.command) && e.command.UpdateSettingsCmd?
    ensures Retiers(s, e) ==> Balanced(After(s, e), Ledger(multiset{}, s.entropy.answerShuffles))
    ensures !Retiers(s, e) ==> Spent(s, After(s, e), multiset{})
  {
    hide Good, Spent, Kept, Balanced, UpdateSettings;
    SettingsCards(s, e.command.caller, e.command.settings, e.now);
    if !Retiers(s, e) {
      KeptIsSpent(s, After(s, e));
    }
  }

  lemma SweepingStep(s: RoomState, e: Event)
    requires Valid(s) && CanStep(s, e.command) && (e.command.NextRoundCmd? || e.command.PlayAgainCmd?)
    ensures Spent(s, After(s, e), Discarded(s, e))
  {
    hide Good, Persist, Spent, NextRound, PlayAgain;
    ValidFacts(s);
    if Step(s, e).error.Some? {
      RefusedKeeps(s, e);
    } else if e.command.NextRoundCmd? {
      NextRoundStarts(s, e.command.caller, e.now);
      NextRoundCards(s, e.command.caller, e.now);
    } else {
      PlayAgainCards(s, e.command.caller, e.command.visit, e.now);
    }
  }

  lemma NextRoundStarts(s: RoomState, caller: Id, now: int)
    requires Valid(s) && s.deck.Playable() && (s.phase == Scoring ==> s.order != []) && NextRound(s, caller, now).error.None?
    ensures s.order != []
  {
  }

  lemma RefusedKeeps(s: RoomState, e: Event)
    requires Valid(s) && CanStep(s, e.command) && (e.command.NextRoundCmd? || e.command.PlayAgainCmd?) && Step(s, e).error.Some?
    ensures Spent(s, After(s, e), multiset{})
  {
    hide Good, Spent, BeginRound, RefillAll;
    NothingMoved(s);
    KeptIsSpent(s, s);
  }

  // Every other event keeps every card in the room.
  lemma QuietCards(s: RoomState, e: Event)
    requires Valid(s) && CanStep(s, e.command)
    requires !e.command.NextRoundCmd? && !e.command.PlayAgainCmd? && !e.command.UpdateSettingsCmd?
    ensures Kept(s, After(s, e))
  {
    hide Core, Stage, Persist, Kept, AddPlayer, Leave, Attach, Detach, StartGame, StartComputerGame, PlayCard, Award;
    hide EndGame, SkipPrompt, OnDeadline, SubmitComputerAnswer, PickComputerWinner, UndoJoin, ScheduleComputerTurns, Touch;
    ValidFacts(s);
    CoreFacts(s);
    NothingMoved(s);
    match e.command {
      case JoinCmd(name) => AddPlayerCards(s, name, false, e.now);
      case UndoJoinCmd(player) => UndoJoinCards(s, player, e.now);
      case LeaveCmd(player) => LeaveCards(s, player, e.now);
      case AttachCmd(player, token, conn) => AttachCards(s, player, token, conn, e.now);
      case DetachCmd(player, conn) => DetachCards(s, player, conn, e.now);
      case StartGameCmd(caller) => StartGameCards(s, caller, e.now);
      case StartComputerGameCmd(caller) => StartComputerGameCards(s, caller, e.now);
      case SubmitAnswerCmd(player, answerId) =>
        PlayCardCards(s, player, answerId, e.now);
        WrapUpCards(s, PlayCard(s, player, answerId, e.now).room, e.now);
      case PickWinnerCmd(judge, sid) =>
        if sid in s.submissions {
          AwardCards(s, sid, e.now);
        }
      case EndGameCmd(caller) => EndGameCards(s, caller, e.now);
      case SkipPromptCmd(caller) => SkipPromptCards(s, caller, e.now);
      case DeadlineFires(seqNo, pick) =>
        var t := Taken(s, DeadlineTimer(seqNo));
        TakenCards(s, DeadlineTimer(seqNo));
        CoreIgnoresCallbacks(s, DeadlineTimer(seqNo));
        DeadlineCards(t, seqNo, pick, e.now);
        KeptTwice(s, t, After(s, e));
      case ComputerAnswers(player, seqNo, card) =>
        var t := Taken(s, ComputerAnswer(player, seqNo));
        TakenCards(s, ComputerAnswer(player, seqNo));
        CoreIgnoresCallbacks(s, ComputerAnswer(player, seqNo));
        ComputerAnswerCards(t, player, seqNo, card, e.now);
        KeptTwice(s, t, After(s, e));
      case ComputerJudges(player, seqNo, pick) =>
        var t := Taken(s, ComputerVerdict(player, seqNo));
        TakenCards(s, ComputerVerdict(player, seqNo));
        CoreIgnoresCallbacks(s, ComputerVerdict(player, seqNo));
        ComputerVerdictCards(t, player, seqNo, pick, e.now);
        KeptTwice(s, t, After(s, e));
    }
  }

  ghost function Books(s: RoomState, l: Ledger, es: seq<Event>): Ledger
    requires Valid(s) && Run(s, es)
    decreases |es|
  {
    if es == [] then l else Books(After(s, es[0]), Book(s, l, es[0]), es[1..])
  }

  // Along every run - joins, leaves, voided rounds, skips, undone joins, stale
  // timers - pile, hands, table and discards add up to one deck per shuffle.
  lemma {:induction false} CardsAreConserved(s: RoomState, l: Ledger, es: seq<Event>)
    requires Valid(s) && Run(s, es) && Balanced(s, l)
    ensures Balanced(End(s, es), Books(s, l, es))
    decreases |es|
  {
    hide Valid, CanStep, Balanced, Step;
    if es != [] {
      var e := es[0];
      StepBalances(s, l, e);
      CardsAreConserved(After(s, e), Book(s, l, e), es[1..]);
    }
  }

  lemma StepBalances(s: RoomState, l: Ledger, e: Event)
    requires Valid(s) && CanStep(s, e.command) && Balanced(s, l)
    ensures Balanced(After(s, e), Book(s, l, e))
  {
    hide Good, CanStep, Spent, Balanced, Step;
    StepCards(s, e);
    if !Retiers(s, e) {
      SpendingBalances(s, After(s, e), l, Discarded(s, e));
    }
  }

  lemma NewRoomBalanced(code: string, deck: Deck, e: Entropy, now: int)
    requires deck.Playable()
    ensures var s := Observed(NewRoom(code, deck, e, now)); Seated(s) && Balanced(s, Ledger(multiset{}, e.answerShuffles))
  {
    hide PromptShoe, Persist;
    ShuffleIsPermutation(deck.For(Party).answers, AnswerRoll(e, e.answerShuffles));
    OneDeck(multiset(deck.answers));
    assert HeldBy(map[], map[], []) == multiset{};
  }

  // While one shuffle has happened and the deck has no duplicates, no card is in
  // two places: not in two hands, nor in a hand and the pile, nor on the table.
  lemma NoCardTwice(s: RoomState, l: Ledger, c: AnswerCard, a: Id, b: Id)
    requires Valid(s) && Balanced(s, l) && s.entropy.answerShuffles == l.base + 1 && multiset(s.deck.answers)[c] <= 1
    requires a in s.players && b in s.players && a != b
    ensures multiset(s.answerPile)[c] + Held(s.players, s.submissions, a)[c] + Held(s.players, s.submissions, b)[c] <= 1
  {
    hide Good, Held, Times, HeldBy, Without;
    GoodCore(s);
    CoreFacts(s);
    OneDeck(multiset(s.deck.answers));
    assert Circulating(s)[c] <= 1;
    WithoutKeeps(s.order, a);
    HeldWithout(s.players, s.submissions, s.order, a);
    HeldWithout(s.players, s.submissions, Without(s.order, a), b);
  }
}
