// The loops of the live room that only read it, as methods of their own, and
// what the steps of its other loops add up to.
module RoomLoops {
  import opened Wrappers
  import opened Sequences
  import opened Cards
  import opened RoomTypes
  import opened RoomInvariant
  import opened SubmissionOrder
  import opened RoomRestore
  import Rules = RoomRules
  import Joins = RoomPreservation
  import Rounds = RoundPreservation

  // drawAnswers: cards off the top, one at a time, with a new shuffle of the whole
  // deck whenever the pile is empty.
  method Draw(pile: seq<AnswerCard>, deck: seq<AnswerCard>, e: Entropy, n: nat) returns (d: Rules.Drawn)
    requires deck != []
    ensures d == Rules.DrawAnswers(pile, deck, e, e.answerShuffles, n)
  {
    hide Rules.DrawAnswers, Drawing;
    d := Rules.Drawn([], pile, e.answerShuffles);
    var i := 0;
    DrawingFrom(pile, deck, e, e.answerShuffles, n);
    while i < n
      invariant i <= n
      invariant Rules.DrawAnswers(pile, deck, e, e.answerShuffles, n) == Drawing(d.hand, d.pile, deck, e, d.shuffles, n - i)
    {
      DrawingOne(d.hand, d.pile, deck, e, d.shuffles, n - i);
      if d.pile == [] {
        var full := Shuffle(deck, Rules.AnswerRoll(e, d.shuffles));
        d := d.(pile := full, shuffles := d.shuffles + 1);
      }
      d := d.(hand := d.hand + [d.pile[|d.pile| - 1]], pile := d.pile[..|d.pile| - 1]);
      i := i + 1;
    }
    DrawingNone(d, deck, e);
  }

  lemma DrawingFrom(pile: seq<AnswerCard>, deck: seq<AnswerCard>, e: Entropy, shuffles: nat, n: nat)
    requires deck != []
    ensures Drawing([], pile, deck, e, shuffles, n) == Rules.DrawAnswers(pile, deck, e, shuffles, n)
  {
    assert [] + Rules.DrawAnswers(pile, deck, e, shuffles, n).hand == Rules.DrawAnswers(pile, deck, e, shuffles, n).hand;
  }

  lemma DrawingNone(d: Rules.Drawn, deck: seq<AnswerCard>, e: Entropy)
    requires deck != []
    ensures Drawing(d.hand, d.pile, deck, e, d.shuffles, 0) == d
  {
    assert d.hand + [] == d.hand;
  }

  // The cards in hand and those still to be drawn.
  ghost function Drawing(out: seq<AnswerCard>, pile: seq<AnswerCard>, deck: seq<AnswerCard>, e: Entropy, shuffles: nat, n: nat): Rules.Drawn
    requires deck != []
  {
    var rest := Rules.DrawAnswers(pile, deck, e, shuffles, n);
    Rules.Drawn(out + rest.hand, rest.pile, rest.shuffles)
  }

  lemma DrawingOne(out: seq<AnswerCard>, pile: seq<AnswerCard>, deck: seq<AnswerCard>, e: Entropy, shuffles: nat, n: nat)
    requires deck != [] && n > 0
    ensures var full := if pile == [] then Shuffled(deck, Rules.AnswerRoll(e, shuffles)) else pile;
            var used := if pile == [] then shuffles + 1 else shuffles;
            full != []
            && Drawing(out, pile, deck, e, shuffles, n)
            == Drawing(out + [full[|full| - 1]], full[..|full| - 1], deck, e, used, n - 1)
  {
    Rules.ShoeNotEmpty(Deck([], deck), e, shuffles);
  }

  ghost function NewPlayer(s: RoomState, name: string, isComputer: bool): Player
    requires s.deck.answers != []
  {
    var pid := s.entropy.nextId;
    Player(pid, if Rules.ClampName(name) == "" then "Guest" else Rules.ClampName(name), pid + 1, 0, isComputer, isComputer, false,
           Rules.Deal(s, HAND_SIZE).hand)
  }

  ghost function BeforeSeating(s: RoomState): RoomState
    requires s.deck.answers != []
  {
    var t := Rules.AfterDeal(s, Rules.Deal(s, HAND_SIZE));
    t.(entropy := t.entropy.(nextId := s.entropy.nextId + 2))
  }

  ghost function LiveCards(subs: map<Id, Submission>, player: Id): seq<AnswerCard> {
    if Rules.HasSubmission(subs, player) then [Rules.CardPlayed(subs, player)] else []
  }

  // The range over the submissions in removePlayerLocked.
  method TakeCards(subs: map<Id, Submission>, player: Id) returns (cards: seq<AnswerCard>, kept: map<Id, Submission>)
    requires OneEach(subs)
    ensures cards == LiveCards(subs, player)
    ensures kept == subs - Rules.SubmissionKeysOf(subs, player)
  {
    hide LiveCards, Rules.SubmissionKeysOf, OneEach;
    ghost var own := Rules.SubmissionKeysOf(subs, player);
    NoCards(subs, player);
    cards, kept := [], subs;
    var left := subs.Keys;
    while left != {}
      invariant left <= subs.Keys && kept == subs - (own - left)
      invariant cards == if own - left == {} then [] else LiveCards(subs, player)
      decreases |left|
    {
      var id :| id in left;
      OwnCard(subs, own, left, id, player);
      if kept[id].playerId == player {
        cards := cards + [kept[id].answer];
        kept := kept - {id};
      }
      left := left - {id};
    }
    assert own - left == own;
  }

  lemma NoCards(subs: map<Id, Submission>, player: Id)
    ensures Rules.SubmissionKeysOf(subs, player) == {} ==> LiveCards(subs, player) == []
    ensures Rules.SubmissionKeysOf(subs, player) <= subs.Keys
    ensures subs - (Rules.SubmissionKeysOf(subs, player) - subs.Keys) == subs
  {
    if Rules.HasSubmission(subs, player) {
      var k :| k in subs && subs[k].playerId == player;
      assert k in Rules.SubmissionKeysOf(subs, player);
    }
  }

  // The range over the submissions of a void round or a skipped prompt.
  method HandBack(players: map<Id, Player>, subs: map<Id, Submission>) returns (out: map<Id, Player>)
    requires OneEach(subs)
    ensures out == Returned(players, subs)
  {
    out := players;
    var left := subs.Keys;
    NothingReturned(players, subs);
    while left != {}
      invariant left <= subs.Keys && out == Returned(players, subs - left)
      decreases |left|
    {
      var k :| k in left;
      ReturnedOne(players, subs, left, k);
      var sub := subs[k];
      if sub.playerId in out {
        var p := out[sub.playerId];
        out := out[sub.playerId := p.(hand := p.hand + [sub.answer])];
      }
      left := left - {k};
    }
    assert subs - left == subs;
  }

  lemma NothingReturned(players: map<Id, Player>, subs: map<Id, Submission>)
    ensures Returned(players, subs - subs.Keys) == players
  {
    assert forall id :: !Rules.HasSubmission(subs - subs.Keys, id);
  }

  method MarkNobody(players: map<Id, Player>, order: seq<Id>) returns (out: map<Id, Player>)
    requires forall id :: id in order ==> id in players
    ensures out == map id | id in players :: if id in order then players[id].(isJudge := false) else players[id]
  {
    out := players;
    var i := 0;
    while i < |order|
      invariant i <= |order|
      invariant out == map id | id in players :: if id in order[..i] then players[id].(isJudge := false) else players[id]
    {
      out := out[order[i] := out[order[i]].(isJudge := false)];
      assert order[..i + 1] == order[..i] + [order[i]];
      i := i + 1;
    }
    assert order[..|order|] == order;
  }

  lemma JudgingKeepsOrder(s: RoomState, now: int)
    requires Rules.Seated(s)
    ensures Rules.BeginJudging(s, now).order == s.order
  {
    hide Rules.Persist;
  }

  lemma AfterRemoval(s: RoomState, player: Id)
    requires Good(s) && player in s.players
    ensures var t := Rules.RemovePlayer(s, player);
            Rules.Seated(t) && Distinct(t.order) && Keyed(t.submissions) && Table(t.players, t.submissions, t.entropy.nextId)
  {
    hide Stage, Rules.RemovePlayer;
    Joins.RemovalDeparts(s, player);
    Joins.CoreFacts(Rules.RemovePlayer(s, player));
  }

  lemma LossKeepsSeats(s: RoomState, wasJudge: bool, now: int)
    requires Rules.Seated(s) && Keyed(s.submissions)
    ensures var t := Rules.ApplyRosterLoss(s, wasJudge, now); Rules.Seated(t) && Keyed(t.submissions)
  {
    hide Rules.Persist, Rules.TakeBack, Rules.ComputerTurns;
  }

  ghost function DealtIn(s: RoomState, id: Id): RoomState
    requires s.deck.answers != [] && id in s.players
  {
    var p := s.players[id].(isJudge := id == s.judgeID);
    if |p.hand| >= HAND_SIZE then s.(players := s.players[id := p])
    else
      var d := Rules.Deal(s, HAND_SIZE - |p.hand|);
      Rules.AfterDeal(s, d).(players := s.players[id := p.(hand := p.hand + d.hand)])
  }

  lemma DealtInFrame(s: RoomState, id: Id)
    requires s.deck.answers != [] && id in s.players
    ensures var t := DealtIn(s, id);
            t.deck == s.deck && t.order == s.order && t.judgeID == s.judgeID && t.players.Keys == s.players.Keys
    ensures forall j :: j in s.players && j != id ==> DealtIn(s, id).players[j] == s.players[j]
    ensures DealtIn(s, id).players[id].isJudge == (id == s.judgeID)
  {
  }

  ghost function DealtAll(s: RoomState, ids: seq<Id>): RoomState
    requires s.deck.answers != [] && forall id :: id in ids ==> id in s.players
    decreases |ids|
  {
    if ids == [] then s else DealtInFrame(s, ids[0]); DealtAll(DealtIn(s, ids[0]), ids[1..])
  }

  ghost function Marked(s: RoomState): RoomState {
    s.(players := Rules.MarkJudge(s.players, s.order, s.judgeID))
  }

  lemma MarkedDeal(s: RoomState, id: Id)
    requires s.deck.answers != [] && id in s.players && id in s.order
    ensures Marked(DealtIn(s, id)) == Rules.RefillOne(Marked(s), id)
  {
    hide Rules.DrawAnswers;
    var a, b := Marked(DealtIn(s, id)), Rules.RefillOne(Marked(s), id);
    assert a.players == b.players;
  }

  // Marking the judge while dealing is marking the judge and then dealing.
  lemma {:induction false} DealtAllRefills(s: RoomState, ids: seq<Id>)
    requires s.deck.answers != [] && forall id :: id in ids ==> id in s.players && id in s.order
    ensures Marked(DealtAll(s, ids)) == Rules.RefillAll(Marked(s), ids)
    decreases |ids|
  {
    hide DealtIn, Rules.RefillOne;
    if ids != [] {
      DealtInFrame(s, ids[0]);
      MarkedDeal(s, ids[0]);
      DealtAllRefills(DealtIn(s, ids[0]), ids[1..]);
    }
  }

  lemma {:induction false} DealtFlags(s: RoomState, ids: seq<Id>)
    requires s.deck.answers != [] && forall id :: id in ids ==> id in s.players
    ensures var t := DealtAll(s, ids);
            t.players.Keys == s.players.Keys && t.order == s.order && t.judgeID == s.judgeID
            && (forall id :: id in ids ==> t.players[id].isJudge == (id == s.judgeID))
            && (forall id :: id in s.players && id !in ids ==> t.players[id] == s.players[id])
    decreases |ids|
  {
    hide DealtIn;
    if ids != [] {
      DealtInFrame(s, ids[0]);
      DealtFlags(DealtIn(s, ids[0]), ids[1..]);
      assert ids == [ids[0]] + ids[1..];
    }
  }

  lemma DealtEveryone(s: RoomState)
    requires s.deck.answers != [] && Rules.Seated(s)
    ensures Marked(DealtAll(s, s.order)) == DealtAll(s, s.order)
  {
    DealtFlags(s, s.order);
    var t := DealtAll(s, s.order);
    assert Marked(t).players == t.players;
  }

  lemma PromptFrame(s: RoomState)
    requires s.deck.prompts != []
    ensures var t := Rules.DrawPrompt(s);
            t == s.(prompt := t.prompt, promptPile := t.promptPile, entropy := t.entropy)
  {
  }

  lemma BeginKeepsOrder(s: RoomState, now: int)
    requires s.deck.Playable() && s.order != [] && s.judgeIndex >= 0 && Rules.Seated(s)
    ensures Rules.BeginRound(s, now).order == s.order
  {
    hide Rules.Persist, Rules.RefillAll, Rules.DrawPrompt;
    var judge := s.order[s.judgeIndex % |s.order|];
    PromptFrame(s.(roundNumber := s.roundNumber + 1, submissions := map[]));
    var t := Rules.DrawPrompt(s.(roundNumber := s.roundNumber + 1, submissions := map[]));
    Rules.RefillAllFrame(t.(judgeID := judge, players := Rules.MarkJudge(t.players, t.order, judge)), t.order);
  }

  lemma SeatedFrame(s: RoomState, name: string, now: int)
    requires s.deck.answers != [] && Rules.Seated(s)
    ensures var t := Rules.AddPlayer(s, name, true, now);
            t.deck == s.deck && Rules.Seated(t) && t.submissions == s.submissions && |t.order| == |s.order| + 1
  {
    hide Rules.DrawAnswers, Rules.Persist;
  }

  lemma SeatsStayDistinct(s: RoomState, now: int)
    requires Valid(s) && s.deck.Playable() && s.phase == Lobby && s.hostID != 0
    ensures Distinct(Rules.SeatComputers(s, now).room.order)
  {
    hide Rules.SeatComputers, Good;
    Rounds.SeatComputersKeeps(s, now);
  }

  // A range over a map has met everyone but those left, each once.
  ghost predicate Visited(visit: seq<Id>, all: set<Id>, left: set<Id>)
    ensures Visited(visit, all, left) ==> left <= all && forall id :: id in visit ==> id in all
  {
    left <= all && Distinct(visit) && forall id :: id in visit <==> id in all && id !in left
  }

  lemma VisitNone(all: set<Id>)
    ensures Visited([], all, all)
  {
  }

  lemma VisitOne(visit: seq<Id>, all: set<Id>, left: set<Id>, id: Id)
    requires Visited(visit, all, left) && id in left
    ensures Visited(visit + [id], all, left - {id})
  {
  }

  lemma VisitedAll(visit: seq<Id>, all: set<Id>)
    requires Visited(visit, all, {})
    ensures Distinct(visit) && forall id :: id in visit <==> id in all
  {
  }

  ghost function SeatReset(s: RoomState, id: Id): RoomState
    requires s.deck.answers != [] && id in s.players
  {
    var p := Rules.ResetPlayer(s.players[id]);
    if |p.hand| >= HAND_SIZE then s.(players := s.players[id := p])
    else
      var d := Rules.Deal(s, HAND_SIZE - |p.hand|);
      Rules.AfterDeal(s, d).(players := s.players[id := p.(hand := p.hand + d.hand)])
  }

  lemma SeatResetFrame(s: RoomState, id: Id)
    requires s.deck.answers != [] && id in s.players
    ensures var t := SeatReset(s, id);
            t.deck == s.deck && t.players.Keys == s.players.Keys
            && (forall j :: j in s.players && j != id ==> t.players[j] == s.players[j])
            && t.players[id] == Rules.ResetPlayer(t.players[id])
  {
  }

  ghost function AllReset(s: RoomState, ids: seq<Id>): RoomState
    requires s.deck.answers != [] && forall id :: id in ids ==> id in s.players
    decreases |ids|
  {
    if ids == [] then s else SeatResetFrame(s, ids[0]); AllReset(SeatReset(s, ids[0]), ids[1..])
  }

  lemma {:induction false} AllResetSnoc(s: RoomState, ids: seq<Id>, x: Id)
    requires s.deck.answers != [] && x in s.players && forall id :: id in ids ==> id in s.players
    ensures AllReset(s, ids).deck == s.deck && AllReset(s, ids).players.Keys == s.players.Keys
    ensures AllReset(s, ids + [x]) == SeatReset(AllReset(s, ids), x)
    decreases |ids|
  {
    hide SeatReset;
    if ids == [] {
      SeatResetFrame(s, x);
      assert ids + [x] == [x] && [x][1..] == [];
    } else {
      SeatResetFrame(s, ids[0]);
      AllResetSnoc(SeatReset(s, ids[0]), ids[1..], x);
      assert (ids + [x])[1..] == ids[1..] + [x];
    }
  }

  // The room with every score and flag cleared.
  ghost function PlayersReset(s: RoomState): RoomState {
    s.(players := map id | id in s.players :: Rules.ResetPlayer(s.players[id]))
  }

  lemma WipedSeat(s: RoomState, id: Id)
    requires s.deck.answers != [] && id in s.players
    ensures PlayersReset(SeatReset(s, id)) == Rules.RefillOne(PlayersReset(s), id)
  {
    hide Rules.DrawAnswers;
    assert PlayersReset(SeatReset(s, id)).players == Rules.RefillOne(PlayersReset(s), id).players;
  }

  // Clearing the players while dealing is clearing them all and then dealing.
  lemma {:induction false} AllResetRefills(s: RoomState, ids: seq<Id>)
    requires s.deck.answers != [] && forall id :: id in ids ==> id in s.players
    ensures PlayersReset(AllReset(s, ids)) == Rules.RefillAll(PlayersReset(s), ids)
    decreases |ids|
  {
    hide SeatReset, Rules.RefillOne;
    if ids != [] {
      SeatResetFrame(s, ids[0]);
      WipedSeat(s, ids[0]);
      AllResetRefills(SeatReset(s, ids[0]), ids[1..]);
    }
  }

  lemma {:induction false} ResetStays(s: RoomState, ids: seq<Id>)
    requires s.deck.answers != [] && forall id :: id in ids ==> id in s.players
    ensures AllReset(s, ids).players.Keys == s.players.Keys
    ensures forall id :: id in s.players && (id in ids || s.players[id] == Rules.ResetPlayer(s.players[id])) ==>
              AllReset(s, ids).players[id] == Rules.ResetPlayer(AllReset(s, ids).players[id])
    decreases |ids|
  {
    hide SeatReset;
    if ids != [] {
      SeatResetFrame(s, ids[0]);
      ResetStays(SeatReset(s, ids[0]), ids[1..]);
      assert ids == [ids[0]] + ids[1..];
    }
  }

  lemma EveryoneReset(s: RoomState, ids: seq<Id>)
    requires s.deck.answers != [] && forall id :: id in ids <==> id in s.players
    ensures PlayersReset(AllReset(s, ids)) == AllReset(s, ids)
  {
    hide Rules.ResetPlayer;
    ResetStays(s, ids);
    assert PlayersReset(AllReset(s, ids)).players == AllReset(s, ids).players;
  }

  lemma WipedIsReset(s: RoomState)
    ensures Rounds.Wiped(s)
         == PlayersReset(s.(roundNumber := 0, judgeIndex := 0, judgeID := 0, prompt := None, submissions := map[]))
  {
  }

  lemma PilesFrame(s: RoomState)
    ensures var t := Rules.FreshPiles(s);
            t == s.(answerPile := t.answerPile, promptPile := t.promptPile, entropy := t.entropy)
  {
  }

  lemma TierFrame(s: RoomState, tier: Tier)
    requires s.fullDeck.For(tier).Playable() && Rules.Seated(s)
    ensures var t := Rules.ChangeTier(s, tier); Rules.Seated(t) && t.submissions == s.submissions
  {
    hide Rules.RedealAll, Rules.FreshPiles;
    var t := s.(contentTier := tier, deck := s.fullDeck.For(tier));
    PilesFrame(t);
    Rules.RedealAllFrame(Rules.FreshPiles(t), s.order);
  }

  lemma PlayedSeats(s: RoomState, player: Id, answerId: string, now: int)
    requires Rules.Seated(s) && Keyed(s.submissions)
    ensures var t := Rules.PlayCard(s, player, answerId, now).room;
            Rules.Seated(t) && t.order == s.order && Keyed(t.submissions)
  {
    hide Rules.Persist, Rules.HasSubmission;
  }

  lemma ScheduledSeats(s: RoomState)
    requires Rules.Seated(s) && Keyed(s.submissions)
    ensures var t := Rules.ScheduleComputerTurns(s); Rules.Seated(t) && Keyed(t.submissions)
  {
    hide Rules.ComputerTurns;
  }

  lemma PhaseSeats(s: RoomState, p: Phase, now: int)
    requires Rules.Seated(s) && Keyed(s.submissions)
    ensures var t := Rules.SetPhase(s, p, 0, now); Rules.Seated(t) && Keyed(t.submissions)
  {
  }

  lemma AwardKeepsOrder(s: RoomState, sid: Id, now: int)
    requires sid in s.submissions && Rules.Seated(s) && Keyed(s.submissions)
    ensures var t := Rules.Award(s, sid, now); t.order == s.order && Rules.Seated(t) && Keyed(t.submissions)
  {
    hide Rules.Persist;
  }

  lemma SomethingToJudge(s: RoomState)
    requires Valid(s)
    ensures s.phase == Judging ==> s.submissions != map[]
  {
  }

  method Submitters(subs: map<Id, Submission>) returns (ids: set<Id>)
    ensures forall id :: id in ids <==> Rules.HasSubmission(subs, id)
  {
    ids := {};
    var left := subs.Keys;
    while left != {}
      invariant left <= subs.Keys
      invariant forall id :: id in ids <==> exists k :: k in subs && k !in left && subs[k].playerId == id
      decreases |left|
    {
      var k :| k in left;
      ids := ids + {subs[k].playerId};
      left := left - {k};
    }
  }

  // The search through the hand in submitAnswerLocked.
  method FindCard(hand: seq<AnswerCard>, answerId: string) returns (index: nat)
    ensures index == Rules.CardIndex(hand, answerId)
  {
    index := 0;
    while index < |hand|
      invariant index <= |hand|
      invariant Rules.CardIndex(hand, answerId) == index + Rules.CardIndex(hand[index..], answerId)
    {
      if hand[index].id == answerId {
        return;
      }
      assert hand[index..][1..] == hand[index + 1..];
      index := index + 1;
    }
  }

  method LoadPlayers(saved: seq<PersistedPlayer>) returns (r: Result<map<Id, Player>, RestoreError>)
    ensures r == RestorePlayers(saved, map[])
  {
    var done: map<Id, Player> := map[];
    var i := 0;
    while i < |saved|
      invariant i <= |saved| && RestorePlayers(saved, map[]) == RestorePlayers(saved[i..], done)
    {
      if saved[i].id == 0 || saved[i].token == 0 {
        return Failure(InvalidPlayer);
      }
      if saved[i].id in done {
        return Failure(DuplicatePlayer);
      }
      assert saved[i..][1..] == saved[i + 1..];
      done := done[saved[i].id := RestorePlayer(saved[i])];
      i := i + 1;
    }
    return Success(done);
  }

  method LoadSubmissions(saved: seq<Submission>, players: map<Id, Player>) returns (r: Result<map<Id, Submission>, RestoreError>)
    ensures r == RestoreSubmissions(saved, players, map[])
  {
    var done: map<Id, Submission> := map[];
    var i := 0;
    while i < |saved|
      invariant i <= |saved|
      invariant RestoreSubmissions(saved, players, map[]) == RestoreSubmissions(saved[i..], players, done)
    {
      if saved[i].id == 0 || saved[i].playerId !in players {
        return Failure(InvalidSubmission);
      }
      if saved[i].id in done {
        return Failure(DuplicateSubmission);
      }
      assert saved[i..][1..] == saved[i + 1..];
      done := done[saved[i].id := saved[i]];
      i := i + 1;
    }
    return Success(done);
  }

  // Go's remainder takes the sign of the dividend.
  function GoRem(a: int, n: int): int
    requires n > 0
  {
    if a >= 0 then a % n else -((-a) % n)
  }

  lemma CursorWraps(a: int, n: int)
    requires n > 0 && a >= -1
    ensures (GoRem(a, n) + n) % n == a % n
  {
    if a >= 0 {
      ModInRange(a, n);
      WrapOnce(a % n, n);
    } else {
      ModWraps(n);
      if n > 1 {
        SmallMod(1, n);
        SmallMod(n - 1, n);
      }
    }
  }

  lemma WrapOnce(r: int, n: int)
    requires 0 <= r < n
    ensures (r + n) % n == r
  {
    assert (r + n) / n == 1;
  }

  lemma OwnCard(all: map<Id, Submission>, own: set<Id>, left: set<Id>, id: Id, player: Id)
    requires own == Rules.SubmissionKeysOf(all, player) && left <= all.Keys && id in left && OneEach(all)
    ensures id in all - (own - left) && (all - (own - left))[id] == all[id] && (id in own <==> all[id].playerId == player)
    ensures id in own ==> own - left == {} && own - (left - {id}) == {id} && LiveCards(all, player) == [all[id].answer]
    ensures id in own ==> (all - (own - left)) - {id} == all - (own - (left - {id}))
    ensures id !in own ==> own - (left - {id}) == own - left
  {
    if id in own {
      assert own == {id};
      assert Rules.HasSubmission(all, player);
    }
  }

  ghost function Returned(players: map<Id, Player>, subs: map<Id, Submission>): map<Id, Player> {
    map id | id in players :: Rules.TakeBack(players[id], subs, id)
  }

  lemma ReturnedOne(players: map<Id, Player>, subs: map<Id, Submission>, left: set<Id>, k: Id)
    requires left <= subs.Keys && k in left && OneEach(subs)
    ensures var a, b := Returned(players, subs - left), Returned(players, subs - (left - {k}));
            b == if subs[k].playerId in players
                 then a[subs[k].playerId := a[subs[k].playerId].(hand := a[subs[k].playerId].hand + [subs[k].answer])]
                 else a
  {
    var old', new' := subs - left, subs - (left - {k});
    var a, b := Returned(players, old'), Returned(players, new');
    assert forall j :: j in new' <==> j in old' || j == k;
    forall id | id in players
      ensures b[id] == if id == subs[k].playerId then a[id].(hand := a[id].hand + [subs[k].answer]) else a[id]
    {
      if id == subs[k].playerId {
        assert !Rules.HasSubmission(old', id);
        assert new'[k].playerId == id;
      } else if Rules.HasSubmission(old', id) {
        var j :| j in old' && old'[j].playerId == id;
        assert new'[j].playerId == id;
      } else {
        assert !Rules.HasSubmission(new', id);
      }
    }
  }

  lemma ReadyToChange(s: RoomState)
    requires Valid(s)
    ensures Good(s) && Rules.Seated(s) && Distinct(s.order) && s.deck.Playable() && Keyed(s.submissions)
    ensures s.entropy.nextId !in s.players && Table(s.players, s.submissions, s.entropy.nextId)
    ensures s.fullDeck.For(Party).Playable() && s.fullDeck.For(Family).Playable() && s.judgeIndex >= 0
    ensures s.phase == Scoring ==> s.order != []
  {
    Joins.CoreFacts(s);
  }

  // scheduleComputerTurnsLocked: the callbacks to start. The delays are not
  // modelled.
  method TurnsDue(phase: Phase, phaseSeq: nat, judgeID: Id, order: seq<Id>, players: map<Id, Player>, subs: map<Id, Submission>)
    returns (turns: seq<Callback>)
    ensures turns == Rules.ComputerTurns(phase, phaseSeq, judgeID, order, players, subs)
  {
    hide Rules.HasSubmission;
    turns := [];
    match phase
    case Submitting =>
      var submitted := Submitters(subs);
      var i := 0;
      while i < |order|
        invariant i <= |order|
        invariant turns == Rules.AnswersDue(phaseSeq, judgeID, order[..i], players, subs)
      {
        var id := order[i];
        assert order[..i + 1][..i] == order[..i] && order[..i + 1][i] == id;
        if id in players && players[id].isComputer && id != judgeID && id !in submitted && players[id].hand != [] {
          turns := turns + [ComputerAnswer(id, phaseSeq)];
        }
        i := i + 1;
      }
      assert order[..|order|] == order;
    case Judging =>
      if judgeID in players && players[judgeID].isComputer && |subs| > 0 {
        turns := [ComputerVerdict(judgeID, phaseSeq)];
      }
    case _ =>
  }

  lemma FirstAt(s: seq<Id>, x: Id, i: nat)
    requires i < |s| && s[i] == x && x !in s[..i]
    ensures IndexOf(s, x) == i && x in s
  {
    if i > 0 {
      assert s[..i][0] == s[0];
      assert s[1..][..i - 1] == s[..i][1..];
      FirstAt(s[1..], x, i - 1);
    }
  }
}
