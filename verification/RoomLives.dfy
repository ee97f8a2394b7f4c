// The life of a room across restarts: runs of events, and in between, at any
// moment, a new process that restores the saved room and resumes it.
module RoomLives {
  import opened Wrappers
  import opened Sequences
  import opened Cards
  import opened RoomTypes
  import opened RoomRules
  import opened RoomInvariant
  import opened RoomPreservation
  import opened RoundPreservation
  import opened RoomRuns
  import opened RoomRestore
  import opened CardConservation
  import opened CardLedger
  import opened StepEffects
  import opened JudgeRotation
  import opened GameLength
  import opened RoomClock
  import opened PromptLedger

  datatype Turn =
    | Happens(event: Event)
    | Restarts(deck: Deck, entropy: Entropy, now: int)

  // A room whose judge has left it cannot be brought back. The new process draws
  // ids that have not been used.
  ghost predicate CanRestart(s: RoomState, deck: Deck, e: Entropy) {
    Generated(s.code) && !JudgeGone(s) && deck.For(Party).Playable() && deck.For(Family).Playable() && e.nextId >= s.entropy.nextId
  }

  ghost predicate CanTurn(s: RoomState, t: Turn)
    requires Valid(s)
  {
    match t
    case Happens(event) => CanStep(s, event.command)
    case Restarts(deck, e, _) => CanRestart(s, deck, e)
  }

  ghost function Brought(s: RoomState, deck: Deck, e: Entropy, now: int): (t: RoomState)
    requires Valid(s) && CanRestart(s, deck, e)
    ensures Valid(t)
  {
    RestoredRoomIsValid(s, deck, e, now);
    Resume(RoomRestore.Restore(Persist(s), deck, e, now).value, now)
  }

  ghost function Turned(s: RoomState, t: Turn): (r: RoomState)
    requires Valid(s) && CanTurn(s, t)
    ensures Valid(r)
  {
    match t
    case Happens(event) => After(s, event)
    case Restarts(deck, e, now) => Brought(s, deck, e, now)
  }

  ghost predicate Life(s: RoomState, ts: seq<Turn>)
    requires Valid(s)
    decreases |ts|
  {
    ts == [] || (CanTurn(s, ts[0]) && Life(Turned(s, ts[0]), ts[1..]))
  }

  // Where a life has come to. Every room on the way is valid.
  ghost function Reached(s: RoomState, ts: seq<Turn>): (r: RoomState)
    requires Valid(s) && Life(s, ts)
    ensures Valid(r)
    decreases |ts|
  {
    if ts == [] then s else Reached(Turned(s, ts[0]), ts[1..])
  }

  // What a restart leaves alone.
  lemma BroughtFrame(s: RoomState, deck: Deck, e: Entropy, now: int)
    requires Valid(s) && CanRestart(s, deck, e)
    ensures var t := Brought(s, deck, e, now);
            t.players == SignedOff(s.players) && t.order == s.order && t.submissions == s.submissions
            && t.judgeID == s.judgeID && t.judgeIndex == s.judgeIndex && t.phase == s.phase && t.phaseDeadline == s.phaseDeadline
            && t.phaseSeq == AtLeastOne(s.phaseSeq) && t.stateVersion == AtLeastOne(s.stateVersion)
            && t.scoreLimit == s.scoreLimit && t.deck == deck.For(s.contentTier) && t.entropy.nextId == e.nextId
  {
    hide Good, RoomRestore.Restore, Persist, Generated, Revived, Resume, SignedOff, JudgeGone;
    RoundTrip(s, deck, e, now);
    RevivedFrame(s, deck, e, now);
    ResumeFrame(Revived(s, deck, e, now), now);
  }

  lemma SignedOffKeys(players: map<Id, Player>)
    ensures SignedOff(players).Keys == players.Keys
    ensures forall id :: id in players ==>
              SignedOff(players)[id].hand == players[id].hand && SignedOff(players)[id].score == players[id].score
  {
  }

  // --- the clock ---

  lemma TurnClock(s: RoomState, t: Turn)
    requires Valid(s) && CanTurn(s, t)
    ensures Later(s, Turned(s, t)) && Turned(s, t).stateVersion >= s.stateVersion
  {
    hide Good, CanStep, CanRestart, Brought, Persist, HasSubmission, SignedOff;
    match t
    case Happens(event) => StepClock(s, event);
    case Restarts(deck, e, now) =>
      assert CanRestart(s, deck, e);
      BroughtFrame(s, deck, e, now);
      SignedOffKeys(s.players);
      NoIdsLost(s, deck, e);
  }

  lemma NoIdsLost(s: RoomState, deck: Deck, e: Entropy)
    requires CanRestart(s, deck, e)
    ensures e.nextId >= s.entropy.nextId
  {
  }

  // Through any restarts the sequence number and the revision only grow, and one
  // sequence number stands for one phase with its deadline and judge, with every
  // card of those still seated still down.
  lemma {:induction false} ClockOfALife(s: RoomState, ts: seq<Turn>)
    requires Valid(s) && Life(s, ts)
    ensures Later(s, Reached(s, ts)) && Reached(s, ts).stateVersion >= s.stateVersion
    decreases |ts|
  {
    hide Good, CanTurn, Turned, HasSubmission;
    if ts != [] {
      TurnClock(s, ts[0]);
      ClockOfALife(Turned(s, ts[0]), ts[1..]);
      forall id: Id | HasSubmission(s.submissions, id)
        ensures id < s.entropy.nextId
      {
        AuthorIds(s, id);
      }
    } else {
      LaterItself(s);
    }
  }

  lemma LaterItself(s: RoomState)
    ensures Later(s, s)
  {
    hide HasSubmission;
  }

  // --- the cards ---

  // `inherited` is what earlier processes shuffled in since the tier was last chosen,
  // each from the deck it had.
  datatype Account = Account(inherited: multiset<AnswerCard>, ledger: Ledger)

  // Pile, hands, table and discards are what was inherited and so many of the decks
  // this process has.
  ghost predicate Settles(s: RoomState, a: Account)
    requires Seated(s)
  {
    a.ledger.base <= s.entropy.answerShuffles
    && Circulating(s) + a.ledger.discarded
       == a.inherited + Times(s.entropy.answerShuffles - a.ledger.base, multiset(s.deck.answers))
  }

  // A new process counts its shuffles anew.
  ghost function Carried(s: RoomState, a: Account, t: Turn): Account
    requires Valid(s) && CanTurn(s, t)
  {
    match t
    case Happens(event) => Account(if Retiers(s, event) then multiset{} else a.inherited, Book(s, a.ledger, event))
    case Restarts(_, e, _) =>
      var shuffled := if a.ledger.base <= s.entropy.answerShuffles then s.entropy.answerShuffles - a.ledger.base else 0;
      Account(a.inherited + Times(shuffled, multiset(s.deck.answers)), a.ledger.(base := e.answerShuffles))
  }

  ghost function CarriedOn(s: RoomState, a: Account, ts: seq<Turn>): Account
    requires Valid(s) && Life(s, ts)
    decreases |ts|
  {
    if ts == [] then a else CarriedOn(Turned(s, ts[0]), Carried(s, a, ts[0]), ts[1..])
  }

  lemma BroughtPile(s: RoomState, deck: Deck, e: Entropy, now: int)
    requires Valid(s) && CanRestart(s, deck, e)
    ensures var t := Brought(s, deck, e, now); var answers := deck.For(s.contentTier).answers;
            if s.answerPile == []
            then multiset(t.answerPile) == multiset(answers) && t.entropy.answerShuffles == e.answerShuffles + 1
            else t.answerPile == s.answerPile && t.entropy.answerShuffles == e.answerShuffles
  {
    hide Good, RoomRestore.Restore, Persist, Generated, Resume, SignedOff, JudgeGone, PromptShoe;
    RoundTrip(s, deck, e, now);
    ResumeFrame(Revived(s, deck, e, now), now);
    ShuffleIsPermutation(deck.For(s.contentTier).answers, AnswerRoll(e, e.answerShuffles));
  }

  lemma BroughtCards(s: RoomState, deck: Deck, e: Entropy, now: int)
    requires Valid(s) && CanRestart(s, deck, e)
    ensures Seated(s) && Seated(Brought(s, deck, e, now))
    ensures var t := Brought(s, deck, e, now);
            Circulating(t) == Circulating(s) + if s.answerPile == [] then multiset(deck.For(s.contentTier).answers) else multiset{}
  {
    hide Good, CanRestart, Brought, Held, SignedOff;
    BroughtFrame(s, deck, e, now);
    BroughtPile(s, deck, e, now);
    var t := Brought(s, deck, e, now);
    forall id | id in s.order
      ensures id in t.players && Held(t.players, t.submissions, id) == Held(s.players, s.submissions, id)
    {
      SignedOffHeld(s.players, s.submissions, id);
    }
    HeldSame(s.players, s.submissions, t.players, t.submissions, s.order);
  }

  lemma SignedOffHeld(players: map<Id, Player>, subs: map<Id, Submission>, id: Id)
    requires id in players
    ensures id in SignedOff(players) && Held(SignedOff(players), subs, id) == Held(players, subs, id)
  {
  }

  lemma RestartSettles(s: RoomState, a: Account, deck: Deck, e: Entropy, now: int)
    requires Valid(s) && CanRestart(s, deck, e) && Settles(s, a)
    ensures Settles(Brought(s, deck, e, now), Carried(s, a, Restarts(deck, e, now)))
  {
    hide Good, CanRestart, Brought, Circulating, Times;
    BroughtFrame(s, deck, e, now);
    BroughtPile(s, deck, e, now);
    BroughtCards(s, deck, e, now);
    OneDeck(multiset(deck.For(s.contentTier).answers));
    NoDeck(multiset(deck.For(s.contentTier).answers));
  }

  lemma NoDeck<T>(m: multiset<T>)
    ensures Times(0, m) == multiset{}
  {
  }

  lemma SpendingSettles(s: RoomState, t: RoomState, a: Account, d: multiset<AnswerCard>)
    requires Seated(s) && Seated(t) && Settles(s, a) && Spent(s, t, d)
    ensures Settles(t, Account(a.inherited, a.ledger.(discarded := a.ledger.discarded + d)))
  {
    hide Circulating, Times;
    var m := multiset(s.deck.answers);
    var n, more := s.entropy.answerShuffles - a.ledger.base, t.entropy.answerShuffles - s.entropy.answerShuffles;
    TimesAdds(n, more, m);
    BalanceAlgebra(Circulating(s), Circulating(t), a.ledger.discarded, d, a.inherited + Times(n, m), Times(more, m));
  }

  lemma EventSettles(s: RoomState, a: Account, e: Event)
    requires Valid(s) && CanStep(s, e.command) && Settles(s, a)
    ensures Settles(After(s, e), Carried(s, a, Happens(e)))
  {
    hide Good, CanStep, Spent, Step, Circulating;
    StepCards(s, e);
    if !Retiers(s, e) {
      SpendingSettles(s, After(s, e), a, Discarded(s, e));
    }
  }

  // No restart makes a card appear or vanish either, whatever deck the new process
  // has: pile, hands, table and discards still add up to one deck per shuffle, each
  // of the process that made it.
  lemma {:induction false} CardsSurviveRestarts(s: RoomState, a: Account, ts: seq<Turn>)
    requires Valid(s) && Life(s, ts) && Settles(s, a)
    ensures Settles(Reached(s, ts), CarriedOn(s, a, ts))
    decreases |ts|
  {
    hide Valid, CanStep, CanRestart, Settles, Step, Brought, After, Book, Retiers;
    if ts != [] {
      match ts[0] {
        case Happens(event) => EventSettles(s, a, event);
        case Restarts(deck, e, now) => RestartSettles(s, a, deck, e, now);
      }
      CardsSurviveRestarts(Turned(s, ts[0]), Carried(s, a, ts[0]), ts[1..]);
    }
  }

  // A life begins with a settled account.
  lemma NewRoomSettles(code: string, deck: Deck, e: Entropy, now: int)
    requires deck.Playable()
    ensures var s := Observed(NewRoom(code, deck, e, now));
            Seated(s) && Settles(s, Account(multiset{}, Ledger(multiset{}, e.answerShuffles)))
  {
    hide AnswerShoe, PromptShoe, Persist, Circulating, Times;
    NewRoomBalanced(code, deck, e, now);
  }

  // --- the prompts ---

  ghost function PromptsCarried(s: RoomState, a: PromptAccount, t: Turn): PromptAccount
    requires Valid(s) && CanTurn(s, t)
  {
    match t
    case Happens(event) => Entry(s, a, event)
    case Restarts(_, e, _) =>
      var shuffled := if a.base <= s.entropy.promptShuffles then s.entropy.promptShuffles - a.base else 0;
      a.(inherited := a.inherited + Times(shuffled, multiset(s.deck.prompts)), base := e.promptShuffles)
  }

  ghost function PromptsCarriedOn(s: RoomState, a: PromptAccount, ts: seq<Turn>): PromptAccount
    requires Valid(s) && Life(s, ts)
    decreases |ts|
  {
    if ts == [] then a else PromptsCarriedOn(Turned(s, ts[0]), PromptsCarried(s, a, ts[0]), ts[1..])
  }

  lemma BroughtPrompts(s: RoomState, deck: Deck, e: Entropy, now: int)
    requires Valid(s) && CanRestart(s, deck, e)
    ensures var t := Brought(s, deck, e, now); var prompts := deck.For(s.contentTier).prompts;
            if s.promptPile == []
            then multiset(t.promptPile) == multiset(prompts) && t.entropy.promptShuffles == e.promptShuffles + 1
            else t.promptPile == s.promptPile && t.entropy.promptShuffles == e.promptShuffles
  {
    hide Good, RoomRestore.Restore, Persist, Generated, Resume, SignedOff, JudgeGone, AnswerShoe;
    RoundTrip(s, deck, e, now);
    ResumeFrame(Revived(s, deck, e, now), now);
    ShuffleIsPermutation(deck.For(s.contentTier).prompts, PromptRoll(e, e.promptShuffles));
  }

  lemma RestartPrompts(s: RoomState, a: PromptAccount, deck: Deck, e: Entropy, now: int)
    requires Valid(s) && CanRestart(s, deck, e) && PromptsSettle(s, a)
    ensures PromptsSettle(Brought(s, deck, e, now), PromptsCarried(s, a, Restarts(deck, e, now)))
  {
    hide Good, CanRestart, Brought, Times;
    BroughtFrame(s, deck, e, now);
    BroughtPrompts(s, deck, e, now);
    OneTimes(multiset(deck.For(s.contentTier).prompts));
  }

  // Nor does a restart bring an asked prompt back before its time: the pile and the
  // prompts asked add up to one deck per shuffle, each of the process that made it.
  lemma {:induction false} PromptsSurviveRestarts(s: RoomState, a: PromptAccount, ts: seq<Turn>)
    requires Valid(s) && Life(s, ts) && PromptsSettle(s, a)
    ensures PromptsSettle(Reached(s, ts), PromptsCarriedOn(s, a, ts))
    decreases |ts|
  {
    hide Valid, CanStep, CanRestart, PromptsSettle, Step, Brought, After, Entry;
    if ts != [] {
      match ts[0] {
        case Happens(event) => EventPrompts(s, a, event);
        case Restarts(deck, e, now) => RestartPrompts(s, a, deck, e, now);
      }
      PromptsSurviveRestarts(Turned(s, ts[0]), PromptsCarried(s, a, ts[0]), ts[1..]);
    }
  }

  // --- the judge's turn ---

  ghost predicate OneGameLife(s: RoomState, ts: seq<Turn>)
    requires Valid(s) && Life(s, ts)
    decreases |ts|
  {
    ts == [] || ((ts[0].Happens? ==> InGame(s, ts[0].event)) && OneGameLife(Turned(s, ts[0]), ts[1..]))
  }

  ghost function TurnsTaken(s: RoomState, ts: seq<Turn>, p: Id): nat
    requires Valid(s) && Life(s, ts)
    decreases |ts|
  {
    if ts == [] then 0
    else (if ts[0].Happens? then TurnOf(s, ts[0].event, p) else 0) + TurnsTaken(Turned(s, ts[0]), ts[1..], p)
  }

  lemma TurnSeats(s: RoomState, t: Turn)
    requires Valid(s) && CanTurn(s, t) && (t.Happens? ==> InGame(s, t.event))
    ensures var r := Turned(s, t);
            r.entropy.nextId >= s.entropy.nextId && forall id :: id in r.players ==> id in s.players || id >= s.entropy.nextId
  {
    hide Valid, CanStep, CanRestart, InGame, Brought, After, SignedOff;
    match t
    case Happens(event) => StepSeats(s, event);
    case Restarts(deck, e, now) =>
      BroughtFrame(s, deck, e, now);
      SignedOffKeys(s.players);
      NoIdsLost(s, deck, e);
  }

  lemma {:induction false} GoneThroughRestarts(s: RoomState, ts: seq<Turn>, p: Id)
    requires Valid(s) && Life(s, ts) && OneGameLife(s, ts) && p !in s.players && p < s.entropy.nextId
    ensures p !in Reached(s, ts).players
    decreases |ts|
  {
    hide Valid, CanTurn, Turned, InGame;
    if ts != [] {
      TurnSeats(s, ts[0]);
      GoneThroughRestarts(Turned(s, ts[0]), ts[1..], p);
    }
  }

  lemma TurnDue(s: RoomState, t: Turn, p: Id, q: Id)
    requires Valid(s) && CanTurn(s, t) && (t.Happens? ==> InGame(s, t.event)) && s.phase != Lobby
    requires p in s.order && q in s.order && p in Turned(s, t).order && q in Turned(s, t).order && p != q
    ensures OnTheRing(s) && OnTheRing(Turned(s, t)) && Turned(s, t).phase != Lobby
    ensures (if t.Happens? then TurnOf(s, t.event, q) - TurnOf(s, t.event, p) else 0) == Due(Turned(s, t), p, q) - Due(s, p, q)
  {
    hide Valid, CanStep, CanRestart, InGame, Brought, After, SignedOff, OnTheRing, TurnOf, Ring, Before;
    match t
    case Happens(event) =>
      StepDue(s, event, p, q);
      StaysInGame(s, event);
    case Restarts(deck, e, now) =>
      BroughtFrame(s, deck, e, now);
      GameHasRing(s);
      GameHasRing(Brought(s, deck, e, now));
  }

  // The judge's turn goes on where it was: through any restarts, two players who
  // stay seated take turns as the circle says.
  lemma {:induction false} JudgesAlternateThroughRestarts(s: RoomState, ts: seq<Turn>, p: Id, q: Id)
    requires Valid(s) && Life(s, ts) && OneGameLife(s, ts) && s.phase != Lobby && p != q
    requires p in s.players && q in s.players && p in Reached(s, ts).players && q in Reached(s, ts).players
    ensures OnTheRing(s) && OnTheRing(Reached(s, ts))
    ensures TurnsTaken(s, ts, q) - TurnsTaken(s, ts, p) == Due(Reached(s, ts), p, q) - Due(s, p, q)
    ensures -1 <= TurnsTaken(s, ts, q) - TurnsTaken(s, ts, p) <= 1
    decreases |ts|
  {
    hide Valid, CanTurn, Turned, InGame, OnTheRing, TurnOf, Ring, Before;
    SeatsAndIds(s, p);
    SeatsAndIds(s, q);
    GameHasRing(s);
    if ts != [] {
      var t := Turned(s, ts[0]);
      TurnSeats(s, ts[0]);
      if p !in t.players {
        GoneThroughRestarts(t, ts[1..], p);
      }
      if q !in t.players {
        GoneThroughRestarts(t, ts[1..], q);
      }
      SeatsAndIds(t, p);
      SeatsAndIds(t, q);
      TurnDue(s, ts[0], p, q);
      JudgesAlternateThroughRestarts(t, ts[1..], p, q);
    }
  }

  // Between two consecutive turns of one judge, with restarts in between or not,
  // everyone seated throughout judges exactly once.
  lemma EveryoneJudgesOnceThroughRestarts(s: RoomState, ts: seq<Turn>, p: Id, q: Id)
    requires Valid(s) && Life(s, ts) && OneGameLife(s, ts) && p != q
    requires s.phase == Submitting && s.judgeID == p
    requires Reached(s, ts).phase == Submitting && Reached(s, ts).judgeID == p && TurnsTaken(s, ts, p) == 1
    requires q in s.players && q in Reached(s, ts).players
    ensures TurnsTaken(s, ts, q) == 1
  {
    hide Valid, CanTurn, Turned, OneGameLife, OnTheRing, TurnsTaken, Due, Life, Reached;
    JudgeAtCursor(s, p);
    JudgeAtCursor(Reached(s, ts), p);
    SeatsAndIds(s, q);
    SeatsAndIds(Reached(s, ts), q);
    JudgesAlternateThroughRestarts(s, ts, p, q);
    CursorIsLast(s, p, q);
    CursorIsLast(Reached(s, ts), p, q);
  }

  // --- the points ---

  ghost function AwardsMade(s: RoomState, ts: seq<Turn>): nat
    requires Valid(s) && Life(s, ts)
    decreases |ts|
  {
    if ts == [] then 0
    else (if ts[0].Happens? && Scorer(s, ts[0].event).Some? then 1 else 0) + AwardsMade(Turned(s, ts[0]), ts[1..])
  }

  ghost predicate NobodyLeaves(s: RoomState, ts: seq<Turn>)
    requires Valid(s) && Life(s, ts)
    decreases |ts|
  {
    ts == [] || ((ts[0].Happens? ==> !Departs(s, ts[0].event)) && NobodyLeaves(Turned(s, ts[0]), ts[1..]))
  }

  lemma TurnPoints(s: RoomState, t: Turn)
    requires Valid(s) && CanTurn(s, t) && (t.Happens? ==> InGame(s, t.event) && !Departs(s, t.event))
    ensures var r := Turned(s, t);
            Seated(s) && Seated(r) && r.scoreLimit == s.scoreLimit
            && Points(r.players, r.order) == Points(s.players, s.order) + if t.Happens? && Scorer(s, t.event).Some? then 1 else 0
  {
    hide Good, CanStep, CanRestart, InGame, Brought, After, SignedOff, Points, Scorer, Persist;
    match t
    case Happens(event) => StepPoints(s, event);
    case Restarts(deck, e, now) =>
      BroughtFrame(s, deck, e, now);
      SignedOffKeys(s.players);
      SamePoints(s.players, Brought(s, deck, e, now).players, s.order);
  }

  lemma {:induction false} PointsSurviveRestarts(s: RoomState, ts: seq<Turn>)
    requires Valid(s) && Life(s, ts) && OneGameLife(s, ts) && NobodyLeaves(s, ts)
    ensures Seated(s) && Seated(Reached(s, ts)) && Reached(s, ts).scoreLimit == s.scoreLimit
    ensures Points(Reached(s, ts).players, Reached(s, ts).order) == Points(s.players, s.order) + AwardsMade(s, ts)
    decreases |ts|
  {
    hide Good, CanTurn, Turned, InGame, Persist, Points, Scorer;
    if ts != [] {
      TurnPoints(s, ts[0]);
      PointsSurviveRestarts(Turned(s, ts[0]), ts[1..]);
    }
  }

  // However often it is restarted, a game nobody leaves ends with the awards.
  lemma GameEndsThroughRestarts(s: RoomState, ts: seq<Turn>)
    requires Valid(s) && Life(s, ts) && OneGameLife(s, ts) && NobodyLeaves(s, ts)
    requires AwardsMade(s, ts) > |Reached(s, ts).order| * (s.scoreLimit - 1)
    ensures Reached(s, ts).phase == Finished
  {
    hide Good, CanTurn, Turned, Life, Reached, OneGameLife, NobodyLeaves, AwardsMade, Persist, Points;
    PointsSurviveRestarts(s, ts);
    var t := Reached(s, ts);
    if t.phase != Finished {
      UnfinishedBelowLimit(t);
      PointsBelow(t.players, t.order, t.scoreLimit - 1);
    }
  }
}
