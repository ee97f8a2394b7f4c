// The daily game as the program runs it: stored rounds changed in place, and the
// loops that read them back (backend/internal/daily/service.go).
module DailyServices {
  import opened Wrappers
  import opened Sequences
  import opened DailyRounds
  import opened DailyRuns

  class DailyService {
    var rounds: map<RoundId, Round>
    var harvests: seq<Harvest>

    constructor ()
      ensures State() == Store(map[], multiset{}, [])
    {
      rounds, harvests := map[], [];
    }

    // Between calls nothing is owed.
    ghost function State(): Store
      reads this
    {
      Store(rounds, multiset{}, harvests)
    }

    method NextRoundNumber(group: GroupId) returns (number: nat)
      ensures NextNumber(State(), group, number)
    {
      var highest := 0;
      var left := rounds.Keys;
      while left != {}
        invariant left <= rounds.Keys
        invariant forall id :: id in rounds && id !in left && rounds[id].group == group ==> rounds[id].number <= highest
        invariant highest > 0 ==> exists id :: id in rounds && rounds[id].group == group && rounds[id].number == highest
        decreases |left|
      {
        var id :| id in left;
        if rounds[id].group == group && rounds[id].number > highest {
          highest := rounds[id].number;
        }
        left := left - {id};
      }
      number := highest + 1;
    }

    method EnsureRound(newId: RoundId, group: GroupId, date: int, prompt: string, opensAt: int, hourAt: int)
      returns (created: bool, ghost number: nat)
      requires newId !in rounds
      modifies this`rounds
      ensures NextNumber(old(State()), group, number)
      ensures State() == DailyRounds.EnsureRound(old(State()), newId, group, date, number, prompt, opensAt, hourAt)
      ensures created <==> !HasRound(old(State()), group, date)
    {
      var next := NextRoundNumber(group);
      number := next;
      if exists id :: id in rounds && rounds[id].group == group && rounds[id].date == date {
        assert HasRound(State(), group, date);
        return false, number;
      }
      var revealAt := hourAt;
      if revealAt <= opensAt {
        revealAt := opensAt + HOUR;
      }
      rounds := rounds[newId := Round(group, date, next, prompt, Open, opensAt, revealAt, revealAt + VOTING_WINDOW, map[], map[])];
      created := true;
    }

    // The reveal, and then the rounds made final. The rounds come out as the join
    // says, each round that has just become final is harvested once unless its
    // harvest is one that fails, and the counts are those of the rows each statement
    // changed.
    method AdvanceDue(scope: Option<GroupId>, now: int, fails: set<RoundId>) returns (revealed: nat, finalized: nat)
      requires WellTimed(State())
      modifies this`rounds, this`harvests
      ensures rounds == DailyRounds.AdvanceDue(old(State()), scope, now).rounds
      ensures revealed == |ToReveal(old(State()), scope, now)|
      ensures finalized == |FallingDue(old(State()), scope, now)|
      ensures HarvestedEach(State(), FallingDue(old(State()), scope, now) - fails, old(harvests), harvests)
    {
      hide Revealed, Closed, ToFinalize, FallsDue, HarvestedEach;
      ghost var s := State();
      DueAfterReveal(s, scope, now);
      var turned := set id | id in rounds && rounds[id].stage == Open && rounds[id].revealAt <= now && InScope(rounds[id], scope);
      revealed := |turned|;
      assert turned == ToReveal(s, scope, now);
      rounds := map id | id in rounds :: Revealed(rounds[id], scope, now);
      assert State() == Reveal(s, scope, now);
      finalized := FinalizeRounds(scope, now, fails);
    }

    // A failed harvest is passed over: the result is what players are waiting on.
    method FinalizeRounds(scope: Option<GroupId>, now: int, fails: set<RoundId>) returns (finalized: nat)
      modifies this`rounds, this`harvests
      ensures rounds == Finalize(old(State()), scope, now).rounds
      ensures finalized == |Due(old(State()), scope, now)|
      ensures HarvestedEach(State(), Due(old(State()), scope, now) - fails, old(harvests), harvests)
    {
      hide Closed, ToFinalize, HarvestedEach, Collected;
      var due := set id | id in rounds && ToFinalize(rounds[id], scope, now);
      rounds := map id | id in rounds :: Closed(rounds[id], scope, now);
      finalized := |due|;
      var found := HarvestRounds(rounds, due, fails, State());
      Appended(State(), due - fails, harvests, found);
      ghost var s := State();
      harvests := harvests + found;
      SameHarvestsOf(s, State(), due - fails, old(harvests), harvests);
    }

    method Submit(id: RoundId, member: MemberId, newId: SubmissionId, text: string, now: int) returns (error: Option<DailyError>)
      modifies this`rounds
      ensures Reply(State(), error) == DailyRounds.Submit(old(State()), id, member, newId, text, now)
    {
      if id !in rounds {
        return Some(Unauthorized);
      }
      var r := rounds[id];
      if r.stage != Open || now >= r.revealAt {
        return Some(RoundClosed);
      }
      var a := Answer(newId, text, now);
      if member in r.answers {
        a := r.answers[member].(text := text);
      }
      rounds := rounds[id := r.(answers := r.answers[member := a])];
      return None;
    }

    method Vote(id: RoundId, voter: MemberId, sid: SubmissionId, now: int) returns (error: Option<DailyError>)
      modifies this`rounds
      ensures Reply(State(), error) == DailyRounds.Vote(old(State()), id, voter, sid, now)
    {
      if id !in rounds {
        return Some(Unauthorized);
      }
      var r := rounds[id];
      if r.stage != Voting || now >= r.closesAt {
        return Some(VotingClosed);
      }
      if !(exists m :: m in r.answers && r.answers[m].id == sid) {
        return Some(NotFound);
      }
      assert Written(r, sid);
      if voter in r.answers && r.answers[voter].id == sid {
        return Some(OwnSubmission);
      }
      rounds := rounds[id := r.(votes := r.votes[voter := sid])];
      return None;
    }

    method UpdateGroup(group: GroupId, date: int, opensAt: int, hourAt: int) returns (error: Option<DailyError>)
      modifies this`rounds
      ensures Reply(State(), error) == Retime(old(State()), group, date, opensAt, hourAt)
    {
      var revealAt := hourAt;
      if revealAt <= opensAt {
        revealAt := opensAt + HOUR;
      }
      if exists id :: id in rounds && IsTodays(rounds[id], group, date) && rounds[id].opensAt >= revealAt {
        return Some(BreaksTimes);
      }
      rounds := map id | id in rounds :: Retimed(rounds[id], group, date, revealAt);
      return None;
    }

    // With its group a round, its answers and its votes go; other groups keep theirs.
    method DeleteGroup(group: GroupId)
      modifies this`rounds
      ensures State() == DailyRounds.DeleteGroup(old(State()), group)
      ensures forall id :: id in rounds <==> id in old(rounds) && old(rounds)[id].group != group
    {
      rounds := map id | id in rounds && rounds[id].group != group :: rounds[id];
    }

    // The answer goes and every vote for it, and nothing else does.
    method DeleteDailySubmission(sid: SubmissionId) returns (error: Option<DailyError>)
      modifies this`rounds
      ensures Reply(State(), error) == RemoveAnswer(old(State()), sid)
      ensures rounds.Keys == old(rounds).Keys && !Present(State(), sid)
    {
      if !(exists id :: id in rounds && exists m :: m in rounds[id].answers && rounds[id].answers[m].id == sid) {
        assert !Present(State(), sid) by {
          forall id | id in rounds
            ensures !Written(rounds[id], sid)
          {
          }
        }
        return Some(NotFound);
      }
      assert Present(State(), sid) by {
        var id :| id in rounds && exists m :: m in rounds[id].answers && rounds[id].answers[m].id == sid;
        assert Written(rounds[id], sid);
      }
      rounds := map id | id in rounds :: Stripped(rounds[id], {sid});
      return None;
    }
  }

  // The loop over the rounds just made final, in any order.
  method HarvestRounds(rounds: map<RoundId, Round>, due: set<RoundId>, fails: set<RoundId>, ghost s: Store) returns (found: seq<Harvest>)
    requires due <= rounds.Keys && s.rounds == rounds
    ensures Collected(s, due - fails, {}, found)
  {
    hide Collected;
    found := [];
    var left := due;
    NoneCollected(s, due, fails);
    while left != {}
      invariant left <= due && Collected(s, due - fails, left, found)
      decreases |left|
    {
      var id :| id in left;
      CollectOne(s, due - fails, left, found, id);
      if id !in fails {
        found := found + [Harvest(id, rounds[id].answers, rounds[id].votes)];
      }
      left := left - {id};
    }
  }

  // What the loop has harvested, once for each round it has been through.
  ghost predicate Collected(s: Store, good: set<RoundId>, left: set<RoundId>, found: seq<Harvest>) {
    |found| == |good - left|
    && (forall i :: 0 <= i < |found| ==> found[i].round in good && found[i] == HarvestOf(s, found[i].round))
    && forall id :: Harvests(found, id) == if id in good - left then 1 else 0
  }

  lemma NoneCollected(s: Store, due: set<RoundId>, fails: set<RoundId>)
    ensures Collected(s, due - fails, due, [])
  {
    assert due - fails - due == {};
  }

  lemma CollectOne(s: Store, good: set<RoundId>, left: set<RoundId>, found: seq<Harvest>, id: RoundId)
    requires Collected(s, good, left, found) && id in left
    ensures Collected(s, good, left - {id}, if id in good then found + [HarvestOf(s, id)] else found)
  {
    hide Harvests;
    OneLess(good, left, id);
    forall j
      ensures Harvests(found + [HarvestOf(s, id)], j) == Harvests(found, j) + if j == id then 1 else 0
    {
      HarvestsSnoc(found, HarvestOf(s, id), j);
    }
  }

  lemma {:induction false} HarvestsJoin(a: seq<Harvest>, b: seq<Harvest>, id: RoundId)
    ensures Harvests(a + b, id) == Harvests(a, id) + Harvests(b, id)
    decreases |b|
  {
    if b == [] {
      assert a + b == a;
    } else {
      var front, h := b[..|b| - 1], b[|b| - 1];
      HarvestsJoin(a, front, id);
      assert b == front + [h] && a + b == (a + front) + [h];
      HarvestsSnoc(front, h, id);
      HarvestsSnoc(a + front, h, id);
    }
  }

  // One harvest of each of these rounds, as the store has it, after those before.
  ghost predicate HarvestedEach(s: Store, good: set<RoundId>, before: seq<Harvest>, after: seq<Harvest>) {
    |after| == |before| + |good| && after[..|before|] == before
    && (forall i :: |before| <= i < |after| ==> after[i].round in good && after[i] == HarvestOf(s, after[i].round))
    && forall id :: Harvests(after, id) == Harvests(before, id) + if id in good then 1 else 0
  }

  lemma Appended(s: Store, good: set<RoundId>, hs: seq<Harvest>, found: seq<Harvest>)
    requires Collected(s, good, {}, found)
    ensures HarvestedEach(s, good, hs, hs + found)
  {
    hide Harvests;
    assert good - {} == good;
    forall id
      ensures Harvests(hs + found, id) == Harvests(hs, id) + Harvests(found, id)
    {
      HarvestsJoin(hs, found, id);
    }
  }

  // A harvest depends on the rounds alone.
  lemma SameHarvestsOf(s: Store, t: Store, good: set<RoundId>, before: seq<Harvest>, after: seq<Harvest>)
    requires HarvestedEach(s, good, before, after) && t.rounds == s.rounds
    ensures HarvestedEach(t, good, before, after)
  {
    hide Harvests;
  }

  lemma OneLess(good: set<RoundId>, left: set<RoundId>, id: RoundId)
    requires id in left
    ensures good - (left - {id}) == (good - left) + if id in good then {id} else {}
    ensures |good - (left - {id})| == |good - left| + if id in good then 1 else 0
  {
    assert good - (left - {id}) == (good - left) + if id in good then {id} else {};
  }

  // Open rounds in scope whose reveal is due.
  ghost function ToReveal(s: Store, scope: Option<GroupId>, now: int): set<RoundId> {
    set id | id in s.rounds && s.rounds[id].stage == Open && s.rounds[id].revealAt <= now && InScope(s.rounds[id], scope)
  }

  lemma DueAfterReveal(s: Store, scope: Option<GroupId>, now: int)
    requires WellTimed(s)
    ensures Due(Reveal(s, scope, now), scope, now) == FallingDue(s, scope, now)
  {
    hide Revealed, ToFinalize, FallsDue;
    forall id | id in s.rounds
      ensures ToFinalize(Revealed(s.rounds[id], scope, now), scope, now) <==> FallsDue(s.rounds[id], scope, now)
    {
      BothStatements(s.rounds[id], scope, now);
    }
  }

  // --- counting ---

  ghost function Backers(r: Round, sid: SubmissionId): set<MemberId> {
    set v | v in r.votes && r.votes[v] == sid
  }

  ghost function VotesFor(r: Round, sid: SubmissionId): nat {
    |Backers(r, sid)|
  }

  method CountVotes(r: Round, sid: SubmissionId) returns (n: nat)
    ensures n == VotesFor(r, sid)
  {
    n := 0;
    var left := r.votes.Keys;
    ghost var counted: set<MemberId> := {};
    while left != {}
      invariant left <= r.votes.Keys && counted == (set v | v in r.votes && v !in left && r.votes[v] == sid) && n == |counted|
      decreases |left|
    {
      var v :| v in left;
      if r.votes[v] == sid {
        n := n + 1;
        counted := counted + {v};
      }
      left := left - {v};
    }
    assert counted == Backers(r, sid);
  }

  // The votes for the answers of these members.
  ghost function Tally(r: Round, members: seq<MemberId>): nat
    requires forall m :: m in members ==> m in r.answers
  {
    if members == [] then 0 else VotesFor(r, r.answers[members[0]].id) + Tally(r, members[1..])
  }

  ghost function AnswerIds(r: Round, members: seq<MemberId>): set<SubmissionId>
    requires forall m :: m in members ==> m in r.answers
  {
    set m | m in members :: r.answers[m].id
  }

  ghost function VotersFor(r: Round, ids: set<SubmissionId>): set<MemberId> {
    set v | v in r.votes && r.votes[v] in ids
  }

  lemma {:induction false} TallyCountsVoters(r: Round, removed: set<SubmissionId>, members: seq<MemberId>)
    requires SoundRound(r, removed) && Distinct(members) && forall m :: m in members ==> m in r.answers
    ensures Tally(r, members) == |VotersFor(r, AnswerIds(r, members))|
    decreases |members|
  {
    hide VotesFor;
    if members == [] {
      assert VotersFor(r, AnswerIds(r, members)) == {};
    } else {
      var m, rest := members[0], members[1..];
      TallyCountsVoters(r, removed, rest);
      assert members == [m] + rest;
      assert forall x :: x in rest ==> r.answers[x].id != r.answers[m].id;
      assert AnswerIds(r, members) == {r.answers[m].id} + AnswerIds(r, rest);
      VotersAdd(r, r.answers[m].id, AnswerIds(r, rest));
    }
  }

  lemma VotersAdd(r: Round, id: SubmissionId, ids: set<SubmissionId>)
    requires id !in ids
    ensures |VotersFor(r, {id} + ids)| == VotesFor(r, id) + |VotersFor(r, ids)|
  {
    assert VotersFor(r, {id} + ids) == Backers(r, id) + VotersFor(r, ids);
    assert Backers(r, id) !! VotersFor(r, ids);
  }

  // Every vote is counted once: the tallies of all answers of a round on any run
  // add up to the number of voters.
  lemma EveryVoteCounts(r: Round, removed: set<SubmissionId>, members: seq<MemberId>)
    requires SoundRound(r, removed) && Distinct(members) && forall m :: m in members <==> m in r.answers
    ensures Tally(r, members) == |r.votes|
  {
    TallyCountsVoters(r, removed, members);
    forall v | v in r.votes
      ensures r.votes[v] in AnswerIds(r, members)
    {
      assert Written(r, r.votes[v]);
    }
    assert VotersFor(r, AnswerIds(r, members)) == r.votes.Keys;
  }

  datatype AnswerView = AnswerView(
    id: SubmissionId, text: string, author: Option<MemberId>, votes: nat, winner: bool, mine: bool, myVote: bool)

  // A round as a member sees it. `listing` is the members who answered, in the
  // order of the query. While the round is open a member sees the number of answers
  // and the own one. Afterwards all answers are there, but authors and votes stay
  // hidden until the round is final; then the winners are exactly the answers
  // nobody got more votes than, if anybody voted.
  method LoadRound(r: Round, member: MemberId, listing: seq<MemberId>)
    returns (mine: Option<Answer>, count: nat, views: seq<AnswerView>)
    requires forall m :: m in listing <==> m in r.answers
    ensures mine == (if member in r.answers then Some(r.answers[member]) else None) && count == |r.answers|
    ensures r.stage == Open ==> views == []
    ensures r.stage != Open ==> |views| == |listing|
    ensures r.stage != Open ==> forall i :: 0 <= i < |views| ==>
              var a, v := r.answers[listing[i]], views[i];
              v.id == a.id && v.text == a.text && (v.mine <==> listing[i] == member)
              && (v.myVote <==> member in r.votes && r.votes[member] == a.id)
              && v.author == (if r.stage == Finalized then Some(listing[i]) else None)
              && v.votes == (if r.stage == Finalized then VotesFor(r, a.id) else 0)
              && (v.winner <==> r.stage == Finalized && VotesFor(r, a.id) > 0
                                && forall m :: m in r.answers ==> VotesFor(r, r.answers[m].id) <= VotesFor(r, a.id))
  {
    hide VotesFor;
    count := |r.answers|;
    mine := if member in r.answers then Some(r.answers[member]) else None;
    if r.stage == Open {
      return mine, count, [];
    }
    var counts: seq<nat> := [];
    var maxVotes := -1;
    var i := 0;
    while i < |listing|
      invariant i <= |listing| && |counts| == i
      invariant forall j :: 0 <= j < i ==> counts[j] == VotesFor(r, r.answers[listing[j]].id) && counts[j] <= maxVotes
      invariant if i == 0 then maxVotes == -1 else exists j :: 0 <= j < i && counts[j] == maxVotes
    {
      var n := CountVotes(r, r.answers[listing[i]].id);
      counts := counts + [n];
      if n > maxVotes {
        maxVotes := n;
      }
      i := i + 1;
    }
    views := [];
    i := 0;
    while i < |listing|
      invariant i <= |listing| && |views| == i
      invariant forall j :: 0 <= j < i ==> views[j] == Shown(r, member, listing[j], counts[j], maxVotes)
    {
      views := views + [Shown(r, member, listing[i], counts[i], maxVotes)];
      i := i + 1;
    }
    forall i | 0 <= i < |views|
      ensures views[i].winner <==> r.stage == Finalized && VotesFor(r, r.answers[listing[i]].id) > 0
                                   && forall m :: m in r.answers ==> VotesFor(r, r.answers[m].id) <= VotesFor(r, r.answers[listing[i]].id)
    {
      MostVotes(r, listing, counts, maxVotes, i);
    }
  }

  function Shown(r: Round, member: MemberId, author: MemberId, votes: nat, maxVotes: int): AnswerView
    requires author in r.answers
  {
    var a := r.answers[author];
    var final := r.stage == Finalized;
    AnswerView(a.id, a.text, if final then Some(author) else None, if final then votes else 0,
               final && maxVotes > 0 && votes == maxVotes, author == member, member in r.votes && r.votes[member] == a.id)
  }

  lemma MostVotes(r: Round, listing: seq<MemberId>, counts: seq<nat>, maxVotes: int, i: nat)
    requires i < |listing| && |counts| == |listing| && forall j :: 0 <= j < |listing| ==> listing[j] in r.answers
    requires forall m :: m in r.answers ==> m in listing
    requires forall j :: 0 <= j < |listing| ==> counts[j] == VotesFor(r, r.answers[listing[j]].id) && counts[j] <= maxVotes
    requires exists j :: 0 <= j < |listing| && counts[j] == maxVotes
    ensures counts[i] == maxVotes <==> forall m :: m in r.answers ==> VotesFor(r, r.answers[m].id) <= counts[i]
  {
    hide VotesFor;
    var j :| 0 <= j < |listing| && counts[j] == maxVotes;
    forall m | m in r.answers
      ensures VotesFor(r, r.answers[m].id) <= maxVotes
    {
      var k :| 0 <= k < |listing| && listing[k] == m;
    }
    assert listing[j] in r.answers && VotesFor(r, r.answers[listing[j]].id) == maxVotes;
  }

  // --- streaks ---

  // The dates of the group's final rounds with at least two answers, newest
  // first. The streak is the longest run of days without a gap that ends with the
  // newest, and nothing if that was before yesterday.
  method GroupStreak(dates: seq<int>, today: int) returns (streak: nat)
    requires forall i, j :: 0 <= i < j < |dates| ==> dates[i] > dates[j]
    ensures streak == 0 <==> dates == [] || dates[0] < today - 1
    ensures streak > 0 ==>
              (forall d :: dates[0] - streak < d <= dates[0] ==> d in dates) && dates[0] - streak !in dates
  {
    if |dates| == 0 || dates[0] < today - 1 {
      return 0;
    }
    streak := 1;
    var i := 1;
    while i < |dates|
      invariant 1 <= i <= |dates| && streak == i && forall j :: 0 <= j < i ==> dates[j] == dates[0] - j
    {
      if dates[i] != dates[i - 1] - 1 {
        break;
      }
      streak := streak + 1;
      i := i + 1;
    }
    forall d | dates[0] - streak < d <= dates[0]
      ensures d in dates
    {
      assert dates[dates[0] - d] == d;
    }
  }
}
