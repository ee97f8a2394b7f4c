// The prompt account of a whole run: no round asks for nothing, and none asks again
// what has been asked since the last shuffle.
module PromptLedger {
  import opened Wrappers
  import opened Sequences
  import opened Cards
  import opened RoomTypes
  import opened RoomRules
  import opened RoomInvariant
  import opened RoomPreservation
  import opened RoomRuns
  import opened PlayLaws
  import opened RoundLaws
  import opened CardLedger
  import opened SeatLaws
  import opened RoomLaws

  // `asked` are the prompts drawn since the tier was last chosen, `base` the shuffles
  // made before, `inherited` what earlier processes shuffled in.
  datatype PromptAccount = PromptAccount(inherited: multiset<PromptCard>, asked: multiset<PromptCard>, base: nat)

  // The pile and the prompts asked are what was inherited and so many whole decks.
  ghost predicate PromptsSettle(s: RoomState, a: PromptAccount) {
    a.base <= s.entropy.promptShuffles
    && multiset(s.promptPile) + a.asked == a.inherited + Times(s.entropy.promptShuffles - a.base, multiset(s.deck.prompts))
  }

  // The commands that ask a new prompt.
  predicate AsksAnew(c: Command) {
    c.StartGameCmd? || c.StartComputerGameCmd? || c.NextRoundCmd? || c.SkipPromptCmd?
  }

  ghost predicate Asks(s: RoomState, e: Event)
    requires Valid(s) && CanStep(s, e.command)
  {
    AsksAnew(e.command) && Step(s, e).error.None?
  }

  ghost function Entry(s: RoomState, a: PromptAccount, e: Event): PromptAccount
    requires Valid(s) && CanStep(s, e.command)
  {
    if Retiers(s, e) then PromptAccount(multiset{}, multiset{}, s.entropy.promptShuffles)
    else if Asks(s, e) && After(s, e).prompt.Some? then a.(asked := a.asked + multiset{After(s, e).prompt.value})
    else a
  }

  ghost predicate SamePrompts(s: RoomState, t: RoomState) {
    t.promptPile == s.promptPile && t.deck == s.deck && t.entropy.promptShuffles == s.entropy.promptShuffles
  }

  // Every successful start, next round and skip asks the prompt on top of the pile;
  // another tier starts the pile afresh; no other event touches it.
  lemma StepPrompts(s: RoomState, e: Event)
    requires Valid(s) && CanStep(s, e.command)
    ensures var t := After(s, e);
            (Retiers(s, e) ==> multiset(t.promptPile) == multiset(t.deck.prompts) && t.entropy.promptShuffles == s.entropy.promptShuffles + 1)
            && (Asks(s, e) ==> DrewPrompt(s, t) && t.deck == s.deck)
            && (!Asks(s, e) && !Retiers(s, e) ==> SamePrompts(s, t))
  {
    hide Valid, CanStep, Step, DrewPrompt, Told, Entered, Refilled, TakenBack, SeatedMore, FirstToJudge, Gone, Played, Awarded;
    match e.command {
      case JoinCmd(name) =>
        JoinLaw(s, name, e.now);
        Refuses(s, e);
      case UndoJoinCmd(player) => UndoJoinLaw(s, player, e.now);
      case LeaveCmd(player) =>
        LeavePrompts(s, player, e.now);
      case AttachCmd(player, token, conn) =>
        AttachLaw(s, player, token, conn, e.now);
        Refuses(s, e);
      case DetachCmd(player, conn) => DetachLaw(s, player, conn, e.now);
      case StartGameCmd(caller) =>
        StartGameLaw(s, caller, e.now);
        Refuses(s, e);
      case StartComputerGameCmd(caller) => ComputerPrompts(s, e);
      case SubmitAnswerCmd(player, answerId) => SubmitPrompts(s, player, answerId, e.now);
      case PickWinnerCmd(judge, sid) => PickPrompts(s, judge, sid, e.now);
      case NextRoundCmd(caller) =>
        NextRoundLaw(s, caller, e.now);
        Refuses(s, e);
      case EndGameCmd(caller) =>
        EndGameLaw(s, caller, e.now);
        Refuses(s, e);
      case SkipPromptCmd(caller) =>
        SkipPromptLaw(s, caller, e.now);
        Refuses(s, e);
      case PlayAgainCmd(caller, visit) =>
        PlayAgainLaw(s, caller, visit, e.now);
        Refuses(s, e);
      case UpdateSettingsCmd(caller, settings) =>
        UpdateSettingsLaw(s, caller, settings, e.now);
        Refuses(s, e);
      case DeadlineFires(seqNo, pick) => DeadlinePrompts(s, seqNo, pick, e.now);
      case ComputerAnswers(player, seqNo, card) => ComputerAnswerPrompts(s, player, seqNo, card, e.now);
      case ComputerJudges(player, seqNo, pick) => VerdictPrompts(s, player, seqNo, pick, e.now);
    }
  }

  lemma Refuses(s: RoomState, e: Event)
    requires Valid(s) && CanStep(s, e.command)
    ensures Step(s, e).error.Some? ==> After(s, e) == s
  {
    hide Valid, CanStep, Step;
    if Step(s, e).error.Some? {
      RefusalChangesNothing(s, e);
    }
  }

  lemma LeavePrompts(s: RoomState, player: Id, now: int)
    requires Valid(s)
    ensures SamePrompts(s, After(s, Event(now, LeaveCmd(player))))
  {
    hide Valid, Step, Gone, Told, Entered, SamePhase, Voided, Remaining;
    LeaveLaw(s, player, now);
    Refuses(s, Event(now, LeaveCmd(player)));
  }

  lemma ComputerPrompts(s: RoomState, e: Event)
    requires Valid(s) && CanStep(s, e.command) && e.command.StartComputerGameCmd?
    ensures Step(s, e).error.Some? ==> SamePrompts(s, After(s, e))
    ensures Step(s, e).error.None? ==> DrewPrompt(s, After(s, e)) && After(s, e).deck == s.deck
  {
    hide Valid, Step, Told, Entered, Refilled, FirstToJudge, NamedApart, DrewPrompt;
    Refuses(s, e);
    StartComputerGameLaw(s, e.command.caller, e.now);
    if Step(s, e).error.None? {
      var t := After(s, e);
      var m: RoomState, cursor: int :| SeatedMore(s, m) && FirstToJudge(m, cursor) && Begun(m, t, cursor, e.now);
      DrewFrom(s, m, t);
    }
  }

  lemma SubmitPrompts(s: RoomState, player: Id, answerId: string, now: int)
    requires Valid(s)
    ensures SamePrompts(s, After(s, Event(now, SubmitAnswerCmd(player, answerId))))
  {
    hide Valid, Step, Told, Entered, SamePhase, FirstOfId, HasSubmission;
    SubmitAnswerLaw(s, player, answerId, now);
    Refuses(s, Event(now, SubmitAnswerCmd(player, answerId)));
  }

  lemma PickPrompts(s: RoomState, who: Id, sid: Id, now: int)
    requires Valid(s)
    ensures SamePrompts(s, After(s, Event(now, PickWinnerCmd(who, sid))))
  {
    hide Valid, Step, Told, Entered;
    PickWinnerLaw(s, who, sid, now);
    Refuses(s, Event(now, PickWinnerCmd(who, sid)));
  }

  lemma DeadlinePrompts(s: RoomState, seqNo: nat, pick: Id, now: int)
    requires Valid(s) && CanStep(s, DeadlineFires(seqNo, pick))
    ensures SamePrompts(s, After(s, Event(now, DeadlineFires(seqNo, pick))))
  {
    hide Valid, Step, Told, Entered;
    DeadlineLaw(s, seqNo, pick, now);
  }

  lemma ComputerAnswerPrompts(s: RoomState, player: Id, seqNo: nat, card: nat, now: int)
    requires Valid(s) && CanStep(s, ComputerAnswers(player, seqNo, card))
    ensures SamePrompts(s, After(s, Event(now, ComputerAnswers(player, seqNo, card))))
  {
    hide Valid, Step, Told, Entered, SamePhase, FirstOfId, HasSubmission;
    ComputerAnswerLaw(s, player, seqNo, card, now);
  }

  lemma VerdictPrompts(s: RoomState, player: Id, seqNo: nat, pick: Id, now: int)
    requires Valid(s) && CanStep(s, ComputerJudges(player, seqNo, pick))
    ensures SamePrompts(s, After(s, Event(now, ComputerJudges(player, seqNo, pick))))
  {
    hide Valid, Step, Told, Entered;
    ComputerVerdictLaw(s, player, seqNo, pick, now);
  }

  lemma DrawSettles(s: RoomState, t: RoomState, a: PromptAccount)
    requires PromptsSettle(s, a) && DrewPrompt(s, t) && t.deck == s.deck
    ensures PromptsSettle(t, a.(asked := a.asked + multiset{t.prompt.value}))
  {
    hide Times;
    var m := multiset(s.deck.prompts);
    var n := s.entropy.promptShuffles - a.base;
    var more := t.entropy.promptShuffles - s.entropy.promptShuffles;
    TimesAdds(n, more, m);
    OneTimes(m);
    assert multiset(t.promptPile + [t.prompt.value]) == multiset(t.promptPile) + multiset{t.prompt.value};
    BalanceAlgebra(multiset(s.promptPile), multiset(t.promptPile), a.asked, multiset{t.prompt.value}, a.inherited + Times(n, m), Times(more, m));
  }

  lemma OneTimes<T>(m: multiset<T>)
    ensures Times(1, m) == m && Times(0, m) == multiset{}
  {
    assert Times(1, m) == m + Times(0, m);
  }

  lemma EventPrompts(s: RoomState, a: PromptAccount, e: Event)
    requires Valid(s) && CanStep(s, e.command) && PromptsSettle(s, a)
    ensures PromptsSettle(After(s, e), Entry(s, a, e))
  {
    hide Valid, CanStep, Step, DrewPrompt, Times;
    StepPrompts(s, e);
    var t := After(s, e);
    if Retiers(s, e) {
      OneTimes(multiset(t.deck.prompts));
    } else if Asks(s, e) {
      PromptOut(s, t);
      DrawSettles(s, t, a);
    }
  }

  lemma PromptOut(s: RoomState, t: RoomState)
    requires DrewPrompt(s, t)
    ensures t.prompt.Some?
  {
  }

  ghost function Entries(s: RoomState, a: PromptAccount, es: seq<Event>): PromptAccount
    requires Valid(s) && Run(s, es)
    decreases |es|
  {
    if es == [] then a else Entries(After(s, es[0]), Entry(s, a, es[0]), es[1..])
  }

  // Along every run the pile and the prompts asked add up to one deck per shuffle.
  lemma {:induction false} PromptsAreConserved(s: RoomState, a: PromptAccount, es: seq<Event>)
    requires Valid(s) && Run(s, es) && PromptsSettle(s, a)
    ensures PromptsSettle(End(s, es), Entries(s, a, es))
    decreases |es|
  {
    hide Valid, CanStep, PromptsSettle, Step;
    if es != [] {
      EventPrompts(s, a, es[0]);
      PromptsAreConserved(After(s, es[0]), Entry(s, a, es[0]), es[1..]);
    }
  }

  lemma NewRoomPrompts(code: string, deck: Deck, e: Entropy, now: int)
    requires deck.Playable()
    ensures var s := Observed(NewRoom(code, deck, e, now)); PromptsSettle(s, PromptAccount(multiset{}, multiset{}, e.promptShuffles))
  {
    hide AnswerShoe, Persist;
    PromptShoeIsDeck(deck.For(Party).prompts, e);
    OneTimes(multiset(deck.For(Party).prompts));
  }

  // While one shuffle has been made of a deck without duplicates of a prompt, it has
  // been asked at most once, and what is still on the pile has not been asked.
  lemma NoPromptTwice(s: RoomState, a: PromptAccount, c: PromptCard)
    requires PromptsSettle(s, a) && a.inherited == multiset{} && s.entropy.promptShuffles == a.base + 1
    requires multiset(s.deck.prompts)[c] <= 1
    ensures a.asked[c] <= 1 && (c in s.promptPile ==> c !in a.asked)
  {
    hide Times;
    OneTimes(multiset(s.deck.prompts));
    assert (multiset(s.promptPile) + a.asked)[c] == multiset(s.deck.prompts)[c];
    assert c in s.promptPile ==> multiset(s.promptPile)[c] >= 1;
  }

  lemma {:induction false} NothingInherited(s: RoomState, a: PromptAccount, es: seq<Event>)
    requires Valid(s) && Run(s, es) && a.inherited == multiset{}
    ensures Entries(s, a, es).inherited == multiset{}
    decreases |es|
  {
    hide Valid, CanStep, Step;
    if es != [] {
      NothingInherited(After(s, es[0]), Entry(s, a, es[0]), es[1..]);
    }
  }

  // On any run of a new room: until the prompts of the tier have been shuffled a
  // second time, none that is once in the deck is asked twice.
  lemma PromptsComeOnce(code: string, deck: Deck, e: Entropy, now: int, es: seq<Event>, c: PromptCard)
    requires Valid(Observed(NewRoom(code, deck, e, now))) && deck.Playable() && Run(Observed(NewRoom(code, deck, e, now)), es)
    requires var s := Observed(NewRoom(code, deck, e, now)); var z := End(s, es);
             z.entropy.promptShuffles == Entries(s, PromptAccount(multiset{}, multiset{}, e.promptShuffles), es).base + 1
             && multiset(z.deck.prompts)[c] <= 1
    ensures var s := Observed(NewRoom(code, deck, e, now));
            Entries(s, PromptAccount(multiset{}, multiset{}, e.promptShuffles), es).asked[c] <= 1
  {
    hide CanStep, Step, PromptsSettle, Run, End, Entries, AnswerShoe, PromptShoe, Persist;
    var s, a := Observed(NewRoom(code, deck, e, now)), PromptAccount(multiset{}, multiset{}, e.promptShuffles);
    NewRoomPrompts(code, deck, e, now);
    PromptsAreConserved(s, a, es);
    NothingInherited(s, a, es);
    NoPromptTwice(End(s, es), Entries(s, a, es), c);
  }
}
