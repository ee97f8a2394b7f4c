// Every award moves the game one point nearer its end.
module GameLength {
  import opened Wrappers
  import opened Sequences
  import opened RoomTypes
  import opened RoomRules
  import opened RoomInvariant
  import opened RoomPreservation
  import opened RoomRuns
  import opened StepEffects
  import opened JudgeRotation

  ghost function Points(players: map<Id, Player>, ids: seq<Id>): nat
    requires forall id :: id in ids ==> id in players
  {
    if ids == [] then 0 else players[ids[0]].score + Points(players, ids[1..])
  }

  lemma {:induction false} SamePoints(before: map<Id, Player>, after: map<Id, Player>, ids: seq<Id>)
    requires forall id :: id in ids ==> id in before && id in after && after[id].score == before[id].score
    ensures Points(after, ids) == Points(before, ids)
  {
    if ids != [] {
      SamePoints(before, after, ids[1..]);
    }
  }

  lemma {:induction false} OnePoint(before: map<Id, Player>, after: map<Id, Player>, ids: seq<Id>, winner: Id)
    requires Distinct(ids) && winner in ids
    requires forall id :: id in ids ==> id in before && id in after
                                        && after[id].score == before[id].score + if id == winner then 1 else 0
    ensures Points(after, ids) == Points(before, ids) + 1
  {
    if ids[0] == winner {
      SamePoints(before, after, ids[1..]);
    } else {
      OnePoint(before, after, ids[1..], winner);
    }
  }

  lemma {:induction false} NewcomerPoints(players: map<Id, Player>, ids: seq<Id>, id: Id)
    requires id in players && players[id].score == 0 && forall x :: x in ids ==> x in players
    ensures Points(players, ids + [id]) == Points(players, ids)
  {
    if ids == [] {
      assert ids + [id] == [id];
    } else {
      assert (ids + [id])[1..] == ids[1..] + [id];
      NewcomerPoints(players, ids[1..], id);
    }
  }

  lemma {:induction false} PointsBelow(players: map<Id, Player>, ids: seq<Id>, most: nat)
    requires forall id :: id in ids ==> id in players && players[id].score <= most
    ensures Points(players, ids) <= |ids| * most
  {
    if ids != [] {
      PointsBelow(players, ids[1..], most);
      assert |ids| * most == most + |ids[1..]| * most;
    }
  }

  // An award goes to a seated player who is not the judge, and to nobody else.
  lemma AwardGoesToAnAnswerer(s: RoomState, e: Event)
    requires Valid(s) && CanStep(s, e.command) && Scorer(s, e).Some?
    ensures Scorer(s, e).value in s.submissions
    ensures var winner := s.submissions[Scorer(s, e).value].playerId;
            winner in s.players && winner != s.judgeID && winner in After(s, e).players
            && After(s, e).players[winner].score == s.players[winner].score + 1
            && forall id :: id in s.players && id != winner ==>
                 id in After(s, e).players && After(s, e).players[id].score == s.players[id].score
  {
    hide Core, Scores, Timers, ComputersDue, Persist, CanStep, Step, Scorer;
    ScorerIsOnTheTable(s, e);
    ScoringTable(s, e);
    JudgeHasNoCard(s);
  }

  lemma JudgeHasNoCard(s: RoomState)
    requires Valid(s) && s.phase == Judging
    ensures !HasSubmission(s.submissions, s.judgeID)
  {
  }

  lemma StepPoints(s: RoomState, e: Event)
    requires Valid(s) && CanStep(s, e.command) && InGame(s, e) && !Departs(s, e)
    ensures Seated(s) && Seated(After(s, e)) && After(s, e).scoreLimit == s.scoreLimit
    ensures Points(After(s, e).players, After(s, e).order)
            == Points(s.players, s.order) + if Scorer(s, e).Some? then 1 else 0
  {
    hide Good, CanStep, Step, Persist, Points;
    var t := After(s, e);
    if Arrives(s, e) {
      ArrivalEffect(s, e);
      SamePoints(s.players, t.players, s.order);
      NewcomerPoints(t.players, s.order, s.entropy.nextId);
    } else if Turns(s, e) {
      TurnEffect(s, e);
      SamePoints(s.players, t.players, s.order);
    } else if Scorer(s, e).Some? {
      ScorerIsOnTheTable(s, e);
      ScoringTable(s, e);
      var winner := s.submissions[Scorer(s, e).value].playerId;
      SeatsAndIds(s, winner);
      OnePoint(s.players, t.players, s.order, winner);
    } else {
      QuietTable(s, e);
      SamePoints(s.players, t.players, s.order);
    }
  }

  ghost function Awards(s: RoomState, es: seq<Event>): nat
    requires Valid(s) && Run(s, es)
    decreases |es|
  {
    if es == [] then 0 else (if Scorer(s, es[0]).Some? then 1 else 0) + Awards(After(s, es[0]), es[1..])
  }

  ghost predicate NobodyDeparts(s: RoomState, es: seq<Event>)
    requires Valid(s) && Run(s, es)
    decreases |es|
  {
    es == [] || (!Departs(s, es[0]) && NobodyDeparts(After(s, es[0]), es[1..]))
  }

  lemma {:induction false} EveryAwardIsAPoint(s: RoomState, es: seq<Event>)
    requires Valid(s) && Run(s, es) && OneGame(s, es) && NobodyDeparts(s, es)
    ensures Seated(s) && Seated(End(s, es)) && End(s, es).scoreLimit == s.scoreLimit
    ensures Points(End(s, es).players, End(s, es).order) == Points(s.players, s.order) + Awards(s, es)
    decreases |es|
  {
    hide Good, CanStep, Step, InGame, Persist, Points, Scorer;
    if es != [] {
      StepPoints(s, es[0]);
      EveryAwardIsAPoint(After(s, es[0]), es[1..]);
    }
  }

  lemma UnfinishedBelowLimit(s: RoomState)
    requires Valid(s) && s.phase != Finished
    ensures s.scoreLimit >= 1 && forall id :: id in s.order ==> id in s.players && s.players[id].score <= s.scoreLimit - 1
  {
    CoreFacts(s);
  }

  // A game nobody leaves is over once the awards outnumber what n players can
  // hold without one of them reaching the limit: n * (limit - 1) points.
  lemma GameEnds(s: RoomState, es: seq<Event>)
    requires Valid(s) && Run(s, es) && OneGame(s, es) && NobodyDeparts(s, es)
    requires Awards(s, es) > |End(s, es).order| * (s.scoreLimit - 1)
    ensures End(s, es).phase == Finished
  {
    hide Good, CanStep, Step, OneGame, NobodyDeparts, Awards, Persist, Points;
    EveryAwardIsAPoint(s, es);
    var t := End(s, es);
    if t.phase != Finished {
      UnfinishedBelowLimit(t);
      PointsBelow(t.players, t.order, t.scoreLimit - 1);
    }
  }
}
