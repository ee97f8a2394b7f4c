// Decks, content tiers and shuffling (backend/internal/cards/deck.go).
module Cards {
  import opened Sequences

  datatype Tier = Family | Party

  datatype PromptCard = PromptCard(id: string, text: string, tier: Tier, uuid: string)

  datatype AnswerCard = AnswerCard(id: string, text: string, tier: Tier, uuid: string)

  datatype Deck = Deck(prompts: seq<PromptCard>, answers: seq<AnswerCard>) {
    // The cards a room at the given tier may draw: family rooms see family
    // cards only, every other room sees the whole deck.
    function For(tier: Tier): Deck {
      if tier != Family then this
      else Deck(FamilyPrompts(prompts), FamilyAnswers(answers))
    }

    predicate Playable() {
      prompts != [] && answers != []
    }
  }

  function FamilyPrompts(s: seq<PromptCard>): seq<PromptCard> {
    if s == [] then []
    else if s[0].tier == Family then [s[0]] + FamilyPrompts(s[1..])
    else FamilyPrompts(s[1..])
  }

  function FamilyAnswers(s: seq<AnswerCard>): seq<AnswerCard> {
    if s == [] then []
    else if s[0].tier == Family then [s[0]] + FamilyAnswers(s[1..])
    else FamilyAnswers(s[1..])
  }

  // A family room can draw exactly the family cards, each as often as the deck
  // holds it, and a party room can draw everything: family is a subset of party.
  lemma {:induction false} TierFilter(d: Deck, p: PromptCard, a: AnswerCard)
    ensures multiset(d.For(Family).prompts)[p] == if p.tier == Family then multiset(d.prompts)[p] else 0
    ensures multiset(d.For(Family).answers)[a] == if a.tier == Family then multiset(d.answers)[a] else 0
    ensures d.For(Party) == d
    decreases |d.prompts| + |d.answers|
  {
    if d.prompts != [] {
      TierFilter(d.(prompts := d.prompts[1..]), p, a);
      assert d.prompts == [d.prompts[0]] + d.prompts[1..];
    } else if d.answers != [] {
      TierFilter(d.(answers := d.answers[1..]), p, a);
      assert d.answers == [d.answers[0]] + d.answers[1..];
    }
  }

  // rand.Shuffle is Fisher-Yates from the back; `roll(i)` stands for the random
  // number drawn for position i and is reduced into 0..i as rand.Intn does.
  type Roll = nat -> nat

  function Swapped<T>(s: seq<T>, i: nat, j: nat): seq<T>
    requires i < |s| && j < |s|
  {
    s[i := s[j]][j := s[i]]
  }

  function ShuffleDown<T>(s: seq<T>, i: nat, roll: Roll): seq<T>
    requires i <= |s|
    decreases i
  {
    if i <= 1 then s
    else ShuffleDown(Swapped(s, i - 1, roll(i - 1) % i), i - 1, roll)
  }

  // ShuffledPrompts and ShuffledAnswers: a shuffled copy of the pile.
  function Shuffled<T>(s: seq<T>, roll: Roll): seq<T> {
    ShuffleDown(s, |s|, roll)
  }

  lemma SwappedIsPermutation<T>(s: seq<T>, i: nat, j: nat)
    requires i < |s| && j < |s|
    ensures multiset(Swapped(s, i, j)) == multiset(s)
  {
  }

  lemma {:induction false} ShuffleDownIsPermutation<T>(s: seq<T>, i: nat, roll: Roll)
    requires i <= |s|
    ensures multiset(ShuffleDown(s, i, roll)) == multiset(s)
    ensures |ShuffleDown(s, i, roll)| == |s|
    decreases i
  {
    if i > 1 {
      SwappedIsPermutation(s, i - 1, roll(i - 1) % i);
      ShuffleDownIsPermutation(Swapped(s, i - 1, roll(i - 1) % i), i - 1, roll);
    }
  }

  // A shuffle deals every card of the deck exactly once.
  lemma ShuffleIsPermutation<T>(s: seq<T>, roll: Roll)
    ensures multiset(Shuffled(s, roll)) == multiset(s)
    ensures |Shuffled(s, roll)| == |s|
  {
    ShuffleDownIsPermutation(s, |s|, roll);
  }

  // The in-place shuffle of a fresh copy, as both Shuffled methods run it.
  method Shuffle<T(0)>(cards: seq<T>, roll: Roll) returns (out: seq<T>)
    ensures out == Shuffled(cards, roll)
    ensures multiset(out) == multiset(cards)
  {
    var copy := new T[|cards|](i requires 0 <= i < |cards| => cards[i]);
    assert copy[..] == cards;
    var i := |cards|;
    while i > 1
      invariant 0 <= i <= |cards|
      invariant ShuffleDown(copy[..], i, roll) == Shuffled(cards, roll)
    {
      var j := roll(i - 1) % i;
      ghost var before := copy[..];
      copy[i - 1], copy[j] := copy[j], copy[i - 1];
      assert copy[..] == Swapped(before, i - 1, j);
      i := i - 1;
    }
    out := copy[..];
    ShuffleIsPermutation(cards, roll);
  }
}
