// Whole runs of the daily game: workers, owners, players and moderators in any
// order.
module DailyRuns {
  import opened Wrappers
  import opened DailyRounds

  datatype Event =
    | Ensured(id: RoundId, group: GroupId, date: int, number: nat, prompt: string, opensAt: int, hourAt: int)
    | Ran(statement: Statement)
    | Harvested(id: RoundId)
    | HarvestFailed(id: RoundId)
    | Submitted(id: RoundId, member: MemberId, newId: SubmissionId, text: string, now: int)
    | Voted(id: RoundId, voter: MemberId, sid: SubmissionId, now: int)
    | GroupMoved(group: GroupId, date: int, opensAt: int, hourAt: int)
    | GroupDeleted(group: GroupId)
    | AnswerRemoved(sid: SubmissionId)

  // The store, and what a run has taken out of it: rounds that went with their
  // group, answers moderators removed, and rounds whose harvest failed.
  datatype Trace = Trace(store: Store, gone: set<RoundId>, removed: set<SubmissionId>, failed: set<RoundId>)

  const START := Trace(Store(map[], multiset{}, []), {}, {}, {})

  // New ids have never been used, the number is one past the last, and only rounds
  // a worker has just made final are harvested.
  ghost predicate CanStep(w: Trace, e: Event) {
    match e
    case Ensured(id, group, _, number, _, _, _) => id !in w.store.rounds && id !in w.gone && NextNumber(w.store, group, number)
    case Harvested(id) => id in w.store.owed
    case HarvestFailed(id) => id in w.store.owed
    case Submitted(_, _, newId, _, _) => newId !in w.removed && !Present(w.store, newId)
    case _ => true
  }

  function RoundsOf(s: Store, group: GroupId): set<RoundId> {
    set id | id in s.rounds && s.rounds[id].group == group
  }

  function Step(w: Trace, e: Event): Trace {
    var s := w.store;
    match e
    case Ensured(id, group, date, number, prompt, opensAt, hourAt) =>
      w.(store := EnsureRound(s, id, group, date, number, prompt, opensAt, hourAt))
    case Ran(statement) => w.(store := Execute(s, statement))
    case Harvested(id) => w.(store := HarvestOne(s, id))
    case HarvestFailed(id) => w.(store := GiveUp(s, id), failed := w.failed + {id})
    case Submitted(id, member, newId, text, now) => w.(store := Submit(s, id, member, newId, text, now).store)
    case Voted(id, voter, sid, now) => w.(store := Vote(s, id, voter, sid, now).store)
    case GroupMoved(group, date, opensAt, hourAt) => w.(store := Retime(s, group, date, opensAt, hourAt).store)
    case GroupDeleted(group) => w.(store := DeleteGroup(s, group), gone := w.gone + RoundsOf(s, group))
    case AnswerRemoved(sid) =>
      w.(store := RemoveAnswer(s, sid).store, removed := if Present(s, sid) then w.removed + {sid} else w.removed)
  }

  ghost predicate Run(w: Trace, es: seq<Event>)
    decreases |es|
  {
    es == [] || (CanStep(w, es[0]) && Run(Step(w, es[0]), es[1..]))
  }

  function End(w: Trace, es: seq<Event>): Trace
    decreases |es|
  {
    if es == [] then w else End(Step(w, es[0]), es[1..])
  }

  // --- what each round keeps ---

  // Votes come after the reveal, for answers that are there, and never for one's
  // own; no two answers share an id, and none has been removed.
  ghost predicate SoundRound(r: Round, removed: set<SubmissionId>) {
    r.opensAt < r.revealAt < r.closesAt
    && (r.stage == Open ==> r.votes == map[])
    && (forall v :: v in r.votes ==> Written(r, r.votes[v]) && !(v in r.answers && r.answers[v].id == r.votes[v]))
    && (forall a, b :: a in r.answers && b in r.answers && a != b ==> r.answers[a].id != r.answers[b].id)
    && (forall a :: a in r.answers ==> r.answers[a].id !in removed)
  }

  // A round only moves forward. From the reveal on its answers only go, and only
  // by being removed; once it is final nothing else about it changes.
  ghost predicate Follows(before: Round, was: set<SubmissionId>, after: Round, removed: set<SubmissionId>) {
    was <= removed
    && Rank(before.stage) <= Rank(after.stage) && SameHead(before, after)
    && (before.stage != Open ==>
          after.answers == Kept(before.answers, removed) && after.revealAt == before.revealAt && after.closesAt == before.closesAt)
    && (before.stage == Finalized ==> after == Stripped(before, removed))
    && (forall m :: m in before.answers && before.answers[m].id !in removed ==>
          m in after.answers && after.answers[m].id == before.answers[m].id)
    && (removed == was ==> forall v :: v in before.votes ==> v in after.votes)
  }

  ghost predicate SameHead(before: Round, after: Round) {
    before.group == after.group && before.date == after.date && before.number == after.number && before.prompt == after.prompt
  }

  lemma NothingToRemove(r: Round, removed: set<SubmissionId>)
    requires SoundRound(r, removed)
    ensures Kept(r.answers, removed) == r.answers && KeptVotes(r.votes, removed) == r.votes
  {
    forall v | v in r.votes
      ensures r.votes[v] !in removed
    {
      assert Written(r, r.votes[v]);
    }
  }

  lemma KeptTwice(answers: map<MemberId, Answer>, votes: map<MemberId, SubmissionId>, some: set<SubmissionId>, all: set<SubmissionId>)
    requires some <= all
    ensures Kept(Kept(answers, some), all) == Kept(answers, all)
    ensures KeptVotes(KeptVotes(votes, some), all) == KeptVotes(votes, all)
  {
  }

  lemma RevealFollows(r: Round, removed: set<SubmissionId>, scope: Option<GroupId>, now: int)
    requires SoundRound(r, removed)
    ensures var t := Revealed(r, scope, now); SoundRound(t, removed) && Follows(r, removed, t, removed)
    ensures Revealed(r, scope, now).stage == Finalized <==> r.stage == Finalized
  {
    NothingToRemove(r, removed);
    assert forall sid :: Written(Revealed(r, scope, now), sid) <==> Written(r, sid);
  }

  lemma CloseFollows(r: Round, removed: set<SubmissionId>, scope: Option<GroupId>, now: int)
    requires SoundRound(r, removed)
    ensures var t := Closed(r, scope, now); SoundRound(t, removed) && Follows(r, removed, t, removed)
  {
    NothingToRemove(r, removed);
    assert forall sid :: Written(Closed(r, scope, now), sid) <==> Written(r, sid);
  }

  lemma RetimeFollows(r: Round, removed: set<SubmissionId>, group: GroupId, date: int, revealAt: int)
    requires SoundRound(r, removed) && (IsTodays(r, group, date) ==> r.opensAt < revealAt)
    ensures var t := Retimed(r, group, date, revealAt);
            SoundRound(t, removed) && Follows(r, removed, t, removed) && t.stage == r.stage
  {
    NothingToRemove(r, removed);
    assert forall sid :: Written(Retimed(r, group, date, revealAt), sid) <==> Written(r, sid);
  }

  lemma AnswerFollows(s: Store, removed: set<SubmissionId>, id: RoundId, member: MemberId, newId: SubmissionId, text: string, now: int)
    requires id in s.rounds && SoundRound(s.rounds[id], removed) && !Written(s.rounds[id], newId) && newId !in removed
    ensures var t := Submit(s, id, member, newId, text, now).store;
            id in t.rounds && SoundRound(t.rounds[id], removed) && Follows(s.rounds[id], removed, t.rounds[id], removed)
            && t.rounds[id].stage == s.rounds[id].stage
  {
    NothingToRemove(s.rounds[id], removed);
  }

  lemma VoteFollows(s: Store, removed: set<SubmissionId>, id: RoundId, voter: MemberId, sid: SubmissionId, now: int)
    requires id in s.rounds && SoundRound(s.rounds[id], removed)
    ensures var t := Vote(s, id, voter, sid, now).store;
            id in t.rounds && SoundRound(t.rounds[id], removed) && Follows(s.rounds[id], removed, t.rounds[id], removed)
            && t.rounds[id].stage == s.rounds[id].stage
  {
    NothingToRemove(s.rounds[id], removed);
    assert forall x :: Written(Vote(s, id, voter, sid, now).store.rounds[id], x) <==> Written(s.rounds[id], x);
  }

  lemma RemovalFollows(r: Round, removed: set<SubmissionId>, sid: SubmissionId)
    requires SoundRound(r, removed) && sid !in removed
    ensures var t := Stripped(r, {sid}); SoundRound(t, removed + {sid}) && Follows(r, removed, t, removed + {sid})
  {
    NothingToRemove(r, removed);
    var t := Stripped(r, {sid});
    assert t == Stripped(r, removed + {sid}) by {
      assert Kept(r.answers, removed + {sid}) == Kept(Kept(r.answers, removed), {sid});
      assert KeptVotes(r.votes, removed + {sid}) == KeptVotes(KeptVotes(r.votes, removed), {sid});
    }
    forall v | v in t.votes
      ensures Written(t, t.votes[v])
    {
      assert Written(r, r.votes[v]);
      var m :| m in r.answers && r.answers[m].id == r.votes[v];
      assert m in t.answers;
    }
  }

  lemma FollowsRefl(r: Round, removed: set<SubmissionId>)
    requires SoundRound(r, removed)
    ensures Follows(r, removed, r, removed)
  {
    NothingToRemove(r, removed);
  }

  lemma FollowsTwice(a: Round, x: set<SubmissionId>, b: Round, y: set<SubmissionId>, c: Round, z: set<SubmissionId>)
    requires Follows(a, x, b, y) && Follows(b, y, c, z)
    ensures Follows(a, x, c, z)
  {
    hide Kept, KeptVotes;
    KeptTwice(a.answers, a.votes, y, z);
  }

  // --- the whole store ---

  ghost function Harvests(hs: seq<Harvest>, id: RoundId): nat {
    if hs == [] then 0 else (if hs[0].round == id then 1 else 0) + Harvests(hs[1..], id)
  }

  // One round a day for a group, rounds numbered apart.
  ghost predicate Calendar(rounds: map<RoundId, Round>) {
    forall i, j :: i in rounds && j in rounds && i != j && rounds[i].group == rounds[j].group ==>
      rounds[i].date != rounds[j].date && rounds[i].number != rounds[j].number
  }

  // How often a round has been harvested, is about to be, or could not be.
  ghost function Settled(w: Trace, id: RoundId): nat {
    w.store.owed[id] + Harvests(w.store.harvests, id) + if id in w.failed then 1 else 0
  }

  // Once for a final round, never for a round before, and at most once for one that
  // is gone.
  ghost predicate Accounted(w: Trace) {
    forall id :: AccountedFor(w, id)
  }

  ghost predicate AccountedFor(w: Trace, id: RoundId) {
    if id in w.store.rounds then
      id !in w.gone && Settled(w, id) == if w.store.rounds[id].stage == Finalized then 1 else 0
    else Settled(w, id) <= if id in w.gone then 1 else 0
  }

  // What was harvested is what the round still holds, but for answers removed.
  ghost predicate Holds(w: Trace, h: Harvest) {
    (h.round in w.store.rounds ==>
       var r := w.store.rounds[h.round];
       r.stage == Finalized && r.answers == Kept(h.answers, w.removed) && r.votes == KeptVotes(h.votes, w.removed))
    && (h.round in w.store.rounds || h.round in w.gone)
  }

  ghost predicate HarvestsHold(w: Trace) {
    forall h :: h in w.store.harvests ==> Holds(w, h)
  }

  ghost predicate RoundsSound(w: Trace) {
    forall id :: id in w.store.rounds ==> SoundRound(w.store.rounds[id], w.removed)
  }

  ghost predicate Sound(w: Trace) {
    RoundsSound(w) && Calendar(w.store.rounds) && Accounted(w) && HarvestsHold(w)
  }

  ghost predicate FollowsIn(w: Trace, t: Trace, id: RoundId)
    requires id in w.store.rounds
  {
    if id in t.store.rounds then Follows(w.store.rounds[id], w.removed, t.store.rounds[id], t.removed) else id in t.gone
  }

  ghost predicate AllFollow(w: Trace, t: Trace) {
    w.removed <= t.removed && w.gone <= t.gone && w.failed <= t.failed
    && forall id :: id in w.store.rounds ==> FollowsIn(w, t, id)
  }

  lemma {:induction false} HarvestsSnoc(hs: seq<Harvest>, h: Harvest, id: RoundId)
    ensures Harvests(hs + [h], id) == Harvests(hs, id) + if h.round == id then 1 else 0
  {
    if hs == [] {
      assert hs + [h] == [h] && [h][1..] == [];
    } else {
      assert (hs + [h])[1..] == hs[1..] + [h];
      HarvestsSnoc(hs[1..], h, id);
    }
  }

  lemma NothingHappened(w: Trace)
    requires RoundsSound(w)
    ensures AllFollow(w, w)
  {
    hide SoundRound, Follows;
    forall id | id in w.store.rounds
      ensures FollowsIn(w, w, id)
    {
      FollowsRefl(w.store.rounds[id], w.removed);
    }
  }

  // Harvests are of final rounds, which stay as they are but for answers removed.
  lemma HarvestsStillHold(w: Trace, t: Trace)
    requires HarvestsHold(w) && AllFollow(w, t) && t.store.harvests == w.store.harvests && t.store.rounds.Keys <= w.store.rounds.Keys
    ensures HarvestsHold(t)
  {
    hide Kept, KeptVotes, Rank;
    forall h | h in t.store.harvests
      ensures Holds(t, h)
    {
      assert Holds(w, h);
      if h.round in w.store.rounds {
        assert FollowsIn(w, t, h.round);
      }
      if h.round in t.store.rounds {
        KeptTwice(h.answers, h.votes, w.removed, t.removed);
      }
    }
  }

  lemma SameCalendar(w: Trace, t: Trace)
    requires Calendar(w.store.rounds) && AllFollow(w, t) && t.store.rounds.Keys <= w.store.rounds.Keys
    ensures Calendar(t.store.rounds)
  {
    hide Rank, Kept, KeptVotes;
    var a, b := w.store.rounds, t.store.rounds;
    forall i | i in b
      ensures SameHead(a[i], b[i])
    {
      assert FollowsIn(w, t, i);
    }
  }

  // A step in which rounds stay where they are, and what becomes final is owed.
  lemma StoreStep(w: Trace, s: Store)
    requires Sound(w) && s.rounds.Keys == w.store.rounds.Keys && s.harvests == w.store.harvests
    requires forall id :: id in s.rounds ==> SoundRound(s.rounds[id], w.removed)
    requires forall id :: id in s.rounds ==> Follows(w.store.rounds[id], w.removed, s.rounds[id], w.removed)
    requires forall id ::
               s.owed[id] == w.store.owed[id]
                             + if id in s.rounds && s.rounds[id].stage == Finalized && w.store.rounds[id].stage != Finalized then 1 else 0
    ensures Sound(w.(store := s)) && AllFollow(w, w.(store := s))
  {
    hide SoundRound, Calendar, Holds, Kept, KeptVotes;
    var t := w.(store := s);
    forall id | id in w.store.rounds
      ensures FollowsIn(w, t, id)
    {
    }
    SameCalendar(w, t);
    HarvestsStillHold(w, t);
    forall id
      ensures AccountedFor(t, id)
    {
      assert AccountedFor(w, id);
    }
  }

  lemma RevealStep(w: Trace, scope: Option<GroupId>, now: int)
    requires Sound(w)
    ensures var t := w.(store := Reveal(w.store, scope, now)); Sound(t) && AllFollow(w, t)
  {
    hide SoundRound, Follows, Revealed, Calendar, HarvestsHold, Accounted;
    var s := Reveal(w.store, scope, now);
    forall id | id in s.rounds
      ensures SoundRound(s.rounds[id], w.removed) && Follows(w.store.rounds[id], w.removed, s.rounds[id], w.removed)
      ensures s.rounds[id].stage == Finalized <==> w.store.rounds[id].stage == Finalized
    {
      RevealFollows(w.store.rounds[id], w.removed, scope, now);
    }
    StoreStep(w, s);
  }

  lemma FinalizeStep(w: Trace, scope: Option<GroupId>, now: int)
    requires Sound(w)
    ensures var t := w.(store := Finalize(w.store, scope, now)); Sound(t) && AllFollow(w, t)
  {
    hide SoundRound, Follows, Calendar, HarvestsHold, Accounted;
    var s := Finalize(w.store, scope, now);
    forall id | id in s.rounds
      ensures SoundRound(s.rounds[id], w.removed) && Follows(w.store.rounds[id], w.removed, s.rounds[id], w.removed)
    {
      CloseFollows(w.store.rounds[id], w.removed, scope, now);
    }
    var due := Due(w.store, scope, now);
    forall id
      ensures multiset(due)[id] == if id in due then 1 else 0
    {
    }
    StoreStep(w, s);
  }

  // A store in which one round was answered or voted on.
  lemma OneRoundStep(w: Trace, s: Store, id: RoundId)
    requires Sound(w) && id in w.store.rounds && id in s.rounds && s == w.store.(rounds := w.store.rounds[id := s.rounds[id]])
    requires SoundRound(s.rounds[id], w.removed) && Follows(w.store.rounds[id], w.removed, s.rounds[id], w.removed)
    requires s.rounds[id].stage == w.store.rounds[id].stage
    ensures Sound(w.(store := s)) && AllFollow(w, w.(store := s))
  {
    hide SoundRound, Follows, Calendar, HarvestsHold, Accounted;
    forall j | j in w.store.rounds
      ensures j in s.rounds && SoundRound(s.rounds[j], w.removed) && Follows(w.store.rounds[j], w.removed, s.rounds[j], w.removed)
    {
      FollowsRefl(w.store.rounds[j], w.removed);
    }
    StoreStep(w, s);
  }

  lemma SubmitStep(w: Trace, id: RoundId, member: MemberId, newId: SubmissionId, text: string, now: int)
    requires Sound(w) && CanStep(w, Submitted(id, member, newId, text, now))
    ensures var t := w.(store := Submit(w.store, id, member, newId, text, now).store); Sound(t) && AllFollow(w, t)
  {
    hide SoundRound, Follows, Written, AllFollow, Calendar, Accounted, HarvestsHold;
    NothingHappened(w);
    var s := Submit(w.store, id, member, newId, text, now).store;
    if id in w.store.rounds && s != w.store {
      AnswerFollows(w.store, w.removed, id, member, newId, text, now);
      OneRoundStep(w, s, id);
    } else {
      assert w.(store := s) == w;
    }
  }

  lemma VoteStep(w: Trace, id: RoundId, voter: MemberId, sid: SubmissionId, now: int)
    requires Sound(w)
    ensures var t := w.(store := Vote(w.store, id, voter, sid, now).store); Sound(t) && AllFollow(w, t)
  {
    hide SoundRound, Follows, Written, AllFollow, Calendar, Accounted, HarvestsHold;
    NothingHappened(w);
    var s := Vote(w.store, id, voter, sid, now).store;
    if id in w.store.rounds && s != w.store {
      VoteFollows(w.store, w.removed, id, voter, sid, now);
      OneRoundStep(w, s, id);
    } else {
      assert w.(store := s) == w;
    }
  }

  lemma RetimeStep(w: Trace, group: GroupId, date: int, opensAt: int, hourAt: int)
    requires Sound(w)
    ensures var t := w.(store := Retime(w.store, group, date, opensAt, hourAt).store); Sound(t) && AllFollow(w, t)
  {
    hide SoundRound, Follows, Calendar, HarvestsHold, Accounted;
    var s := Retime(w.store, group, date, opensAt, hourAt).store;
    if Retime(w.store, group, date, opensAt, hourAt).error.None? {
      forall id | id in s.rounds
        ensures SoundRound(s.rounds[id], w.removed) && Follows(w.store.rounds[id], w.removed, s.rounds[id], w.removed)
        ensures s.rounds[id].stage == w.store.rounds[id].stage
      {
        RetimeFollows(w.store.rounds[id], w.removed, group, date, RevealAt(opensAt, hourAt));
      }
      StoreStep(w, s);
    } else {
      NothingHappened(w);
      assert w.(store := s) == w;
    }
  }

  lemma SameRoundsFollow(w: Trace, t: Trace)
    requires RoundsSound(w) && t.removed == w.removed && w.gone <= t.gone && w.failed <= t.failed
    requires forall id :: id in w.store.rounds ==> (id in t.store.rounds && t.store.rounds[id] == w.store.rounds[id]) || (id !in t.store.rounds && id in t.gone)
    ensures AllFollow(w, t)
  {
    hide SoundRound, Follows;
    forall id | id in w.store.rounds
      ensures FollowsIn(w, t, id)
    {
      FollowsRefl(w.store.rounds[id], w.removed);
    }
  }

  lemma HarvestStep(w: Trace, id: RoundId)
    requires Sound(w) && id in w.store.owed
    ensures var t := w.(store := HarvestOne(w.store, id)); Sound(t) && AllFollow(w, t)
  {
    hide SoundRound, Calendar, Kept, KeptVotes, Follows, FollowsIn;
    var t := w.(store := HarvestOne(w.store, id));
    var h := HarvestOf(w.store, id);
    SameRoundsFollow(w, t);
    forall j
      ensures AccountedFor(t, j)
    {
      assert AccountedFor(w, j);
      HarvestsSnoc(w.store.harvests, h, j);
    }
    assert AccountedFor(w, id);
    if id in w.store.rounds {
      NothingToRemove(w.store.rounds[id], w.removed);
    }
    assert Holds(t, h);
    forall k | k in t.store.harvests
      ensures Holds(t, k)
    {
      assert k == h || Holds(w, k);
    }
  }

  lemma FailureStep(w: Trace, id: RoundId)
    requires Sound(w) && id in w.store.owed
    ensures var t := w.(store := GiveUp(w.store, id), failed := w.failed + {id}); Sound(t) && AllFollow(w, t)
  {
    hide SoundRound, Calendar, Kept, KeptVotes, Follows, FollowsIn;
    var t := w.(store := GiveUp(w.store, id), failed := w.failed + {id});
    SameRoundsFollow(w, t);
    assert AccountedFor(w, id);
    forall j
      ensures AccountedFor(t, j)
    {
      assert AccountedFor(w, j);
    }
    forall k | k in t.store.harvests
      ensures Holds(t, k)
    {
      assert Holds(w, k);
    }
  }

  lemma DeleteStep(w: Trace, group: GroupId)
    requires Sound(w)
    ensures var t := Step(w, GroupDeleted(group)); Sound(t) && AllFollow(w, t)
  {
    hide SoundRound, Kept, KeptVotes, Follows, FollowsIn, HarvestsHold;
    var t := Step(w, GroupDeleted(group));
    SameRoundsFollow(w, t);
    forall j
      ensures AccountedFor(t, j)
    {
      assert AccountedFor(w, j);
    }
    HarvestsStillHold(w, t);
  }

  lemma RemovalStep(w: Trace, sid: SubmissionId)
    requires Sound(w)
    ensures var t := Step(w, AnswerRemoved(sid)); Sound(t) && AllFollow(w, t)
  {
    hide SoundRound, Kept, KeptVotes, Follows, HarvestsHold, Written, Calendar;
    if !Present(w.store, sid) {
      NothingHappened(w);
      assert Step(w, AnswerRemoved(sid)) == w;
    } else {
      var t := Step(w, AnswerRemoved(sid));
      NotYetRemoved(w, sid);
      forall id | id in w.store.rounds
        ensures SoundRound(t.store.rounds[id], t.removed) && FollowsIn(w, t, id) && t.store.rounds[id].stage == w.store.rounds[id].stage
      {
        RemovalFollows(w.store.rounds[id], w.removed, sid);
      }
      SameCalendar(w, t);
      HarvestsStillHold(w, t);
      forall j
        ensures AccountedFor(t, j)
      {
        assert AccountedFor(w, j);
      }
    }
  }

  lemma NotYetRemoved(w: Trace, sid: SubmissionId)
    requires RoundsSound(w) && Present(w.store, sid)
    ensures sid !in w.removed
  {
  }

  lemma EnsureStep(w: Trace, id: RoundId, group: GroupId, date: int, number: nat, prompt: string, opensAt: int, hourAt: int)
    requires Sound(w) && id !in w.store.rounds && id !in w.gone && NextNumber(w.store, group, number)
    ensures var t := w.(store := EnsureRound(w.store, id, group, date, number, prompt, opensAt, hourAt)); Sound(t) && AllFollow(w, t)
  {
    hide Follows, HarvestsHold, SoundRound, Calendar, NextNumber, HasRound, Accounted;
    NothingHappened(w);
    if !HasRound(w.store, group, date) {
      var revealAt := RevealAt(opensAt, hourAt);
      var r := Round(group, date, number, prompt, Open, opensAt, revealAt, revealAt + VOTING_WINDOW, map[], map[]);
      BlankRound(r, w.removed);
      RoundAdded(w, id, r);
    } else {
      assert w.(store := EnsureRound(w.store, id, group, date, number, prompt, opensAt, hourAt)) == w;
    }
  }

  lemma BlankRound(r: Round, removed: set<SubmissionId>)
    requires r.opensAt < r.revealAt < r.closesAt && r.answers == map[] && r.votes == map[]
    ensures SoundRound(r, removed)
  {
  }

  lemma RoundAdded(w: Trace, id: RoundId, r: Round)
    requires Sound(w) && id !in w.store.rounds && id !in w.gone && SoundRound(r, w.removed) && r.stage == Open
    requires !HasRound(w.store, r.group, r.date) && NextNumber(w.store, r.group, r.number)
    ensures var t := w.(store := w.store.(rounds := w.store.rounds[id := r])); Sound(t) && AllFollow(w, t)
  {
    hide SoundRound, Follows, FollowsIn, Calendar, Kept, KeptVotes;
    var t := w.(store := w.store.(rounds := w.store.rounds[id := r]));
    SameRoundsFollow(w, t);
    CalendarAdds(w.store, id, r);
    forall j
      ensures AccountedFor(t, j)
    {
      assert AccountedFor(w, j);
    }
    forall k | k in t.store.harvests
      ensures Holds(t, k)
    {
      assert Holds(w, k);
    }
  }

  lemma CalendarAdds(s: Store, id: RoundId, r: Round)
    requires Calendar(s.rounds) && !HasRound(s, r.group, r.date) && NextNumber(s, r.group, r.number)
    ensures Calendar(s.rounds[id := r])
  {
  }

  lemma StepSound(w: Trace, e: Event)
    requires Sound(w) && CanStep(w, e)
    ensures Sound(Step(w, e)) && AllFollow(w, Step(w, e))
  {
    hide Sound, AllFollow, NextNumber, Submit, Vote, Retime, Reveal, Finalize, HarvestOne, GiveUp, EnsureRound, Written, Present,
         DeleteGroup, RemoveAnswer, RoundsOf;
    match e
    case Ensured(id, group, date, number, prompt, opensAt, hourAt) => EnsureStep(w, id, group, date, number, prompt, opensAt, hourAt);
    case Ran(statement) =>
      match statement {
        case RevealDue(scope, now) => RevealStep(w, scope, now);
        case FinalizeDue(scope, now) => FinalizeStep(w, scope, now);
      }
    case Harvested(id) => HarvestStep(w, id);
    case HarvestFailed(id) => FailureStep(w, id);
    case Submitted(id, member, newId, text, now) => SubmitStep(w, id, member, newId, text, now);
    case Voted(id, voter, sid, now) => VoteStep(w, id, voter, sid, now);
    case GroupMoved(group, date, opensAt, hourAt) => RetimeStep(w, group, date, opensAt, hourAt);
    case GroupDeleted(group) => DeleteStep(w, group);
    case AnswerRemoved(sid) => RemovalStep(w, sid);
  }

  // A round that is gone does not come back.
  lemma GoneStays(w: Trace, t: Trace, id: RoundId)
    requires Accounted(t) && AllFollow(w, t) && id in w.gone
    ensures id !in t.store.rounds
  {
    hide Follows;
    assert AccountedFor(t, id);
  }

  lemma {:induction false} RunSound(w: Trace, es: seq<Event>)
    requires Sound(w) && Run(w, es)
    ensures Sound(End(w, es)) && AllFollow(w, End(w, es))
    decreases |es|
  {
    hide SoundRound, Calendar, HarvestsHold, AccountedFor, CanStep, Step, Follows;
    if es == [] {
      NothingHappened(w);
    } else {
      var m, t := Step(w, es[0]), End(w, es);
      StepSound(w, es[0]);
      RunSound(m, es[1..]);
      forall id | id in w.store.rounds
        ensures FollowsIn(w, t, id)
      {
        assert FollowsIn(w, m, id);
        if id in m.store.rounds {
          assert FollowsIn(m, t, id);
          if id in t.store.rounds {
            FollowsTwice(w.store.rounds[id], w.removed, m.store.rounds[id], m.removed, t.store.rounds[id], t.removed);
          }
        } else {
          GoneStays(m, t, id);
        }
      }
    }
  }

  lemma StartIsSound()
    ensures Sound(START)
  {
  }

  // --- what a run says ---

  lemma {:induction false} FailedMeans(w: Trace, es: seq<Event>, id: RoundId)
    ensures id in End(w, es).failed <==> id in w.failed || HarvestFailed(id) in es
    decreases |es|
  {
    if es != [] {
      FailedMeans(Step(w, es[0]), es[1..], id);
      assert es == [es[0]] + es[1..];
    }
  }

  // A round stays as long as its group does.
  lemma {:induction false} StaysWithItsGroup(w: Trace, es: seq<Event>, id: RoundId)
    requires Sound(w) && Run(w, es) && id in w.store.rounds
    ensures id in End(w, es).store.rounds <==> GroupDeleted(w.store.rounds[id].group) !in es
    decreases |es|
  {
    hide SoundRound, Calendar, Accounted, HarvestsHold, CanStep;
    if es != [] {
      assert es == [es[0]] + es[1..];
      StepSound(w, es[0]);
      var m := Step(w, es[0]);
      assert FollowsIn(w, m, id);
      RunSound(m, es[1..]);
      if id in m.store.rounds {
        StaysWithItsGroup(m, es[1..], id);
        assert es[0] != GroupDeleted(w.store.rounds[id].group);
      } else {
        GoneStays(m, End(w, es), id);
        OnlyDeletionLosesRounds(w, es[0], id);
      }
    }
  }

  lemma OnlyDeletionLosesRounds(w: Trace, e: Event, id: RoundId)
    requires id in w.store.rounds && id !in Step(w, e).store.rounds
    ensures e == GroupDeleted(w.store.rounds[id].group)
  {
  }

  function Removals(es: seq<Event>): set<SubmissionId> {
    set e | e in es && e.AnswerRemoved? :: e.sid
  }

  // While its round is there, an answer is removed exactly when someone asks.
  lemma {:induction false} RemovedMeans(w: Trace, es: seq<Event>, id: RoundId, m: MemberId)
    requires Sound(w) && Run(w, es) && id in w.store.rounds && m in w.store.rounds[id].answers && id in End(w, es).store.rounds
    ensures var sid := w.store.rounds[id].answers[m].id; sid in End(w, es).removed <==> sid in Removals(es)
    decreases |es|
  {
    hide Sound, CanStep, Step, Follows, AllFollow;
    var sid := w.store.rounds[id].answers[m].id;
    SoundAnswer(w, id, m);
    if es != [] {
      var n := Step(w, es[0]);
      StepSound(w, es[0]);
      StillThere(w, es, id);
      if es[0] == AnswerRemoved(sid) {
        RunSound(n, es[1..]);
        RemovedNow(w, n, End(w, es), sid);
        assert es[0] in es;
      } else {
        KeepsAnswer(w, es[0], id, m);
        RemovedMeans(n, es[1..], id, m);
        RemovalsCons(es, sid);
      }
    }
  }

  lemma SoundAnswer(w: Trace, id: RoundId, m: MemberId)
    requires Sound(w) && id in w.store.rounds && m in w.store.rounds[id].answers
    ensures w.store.rounds[id].answers[m].id !in w.removed && Present(w.store, w.store.rounds[id].answers[m].id)
  {
    assert Written(w.store.rounds[id], w.store.rounds[id].answers[m].id);
  }

  lemma RemovedNow(w: Trace, n: Trace, t: Trace, sid: SubmissionId)
    requires Present(w.store, sid) && n == Step(w, AnswerRemoved(sid)) && AllFollow(n, t)
    ensures sid in t.removed
  {
  }

  lemma KeepsAnswer(w: Trace, e: Event, id: RoundId, m: MemberId)
    requires Sound(w) && CanStep(w, e) && id in w.store.rounds && m in w.store.rounds[id].answers && id in Step(w, e).store.rounds
    requires e != AnswerRemoved(w.store.rounds[id].answers[m].id)
    ensures var r, t := w.store.rounds[id], Step(w, e).store.rounds[id];
            m in t.answers && t.answers[m].id == r.answers[m].id && r.answers[m].id !in Step(w, e).removed
  {
    hide Sound, CanStep, Step;
    SoundAnswer(w, id, m);
    StepSound(w, e);
    OnlyRequestsRemove(w, e, w.store.rounds[id].answers[m].id);
    assert FollowsIn(w, Step(w, e), id);
  }

  lemma RemovalsCons(es: seq<Event>, sid: SubmissionId)
    requires es != [] && es[0] != AnswerRemoved(sid)
    ensures sid in Removals(es) <==> sid in Removals(es[1..])
  {
    assert sid in Removals(es) <==> AnswerRemoved(sid) in es;
    assert sid in Removals(es[1..]) <==> AnswerRemoved(sid) in es[1..];
    assert es == [es[0]] + es[1..];
  }

  lemma OnlyRequestsRemove(w: Trace, e: Event, sid: SubmissionId)
    requires sid !in w.removed && e != AnswerRemoved(sid)
    ensures sid !in Step(w, e).removed
  {
  }

  lemma StillThere(w: Trace, es: seq<Event>, id: RoundId)
    requires Sound(w) && Run(w, es) && es != [] && id in w.store.rounds && id in End(w, es).store.rounds
    ensures id in Step(w, es[0]).store.rounds
  {
    hide SoundRound, Calendar, HarvestsHold, CanStep, Step, Follows, Accounted;
    StepSound(w, es[0]);
    RunSound(Step(w, es[0]), es[1..]);
    assert FollowsIn(w, Step(w, es[0]), id);
    if id !in Step(w, es[0]).store.rounds {
      GoneStays(Step(w, es[0]), End(w, es), id);
    }
  }

  // From the reveal on, the answers of a round are those it had without the ones
  // removed since; once it is final so is everything else about it.
  lemma RevealedRoundOnlyLoses(w: Trace, es: seq<Event>, id: RoundId)
    requires Sound(w) && Run(w, es) && id in w.store.rounds && w.store.rounds[id].stage != Open && id in End(w, es).store.rounds
    ensures var r, t := w.store.rounds[id], End(w, es).store.rounds[id];
            t.answers == Kept(r.answers, Removals(es)) && (r.stage == Finalized ==> t == Stripped(r, Removals(es)))
  {
    hide Calendar, Accounted, HarvestsHold, CanStep, Step, Run, End, Removals;
    RunSound(w, es);
    var r, z := w.store.rounds[id], End(w, es);
    assert FollowsIn(w, z, id);
    forall m | m in r.answers
      ensures r.answers[m].id in z.removed <==> r.answers[m].id in Removals(es)
    {
      RemovedMeans(w, es, id, m);
    }
    assert Kept(r.answers, z.removed) == Kept(r.answers, Removals(es));
    forall v | v in r.votes
      ensures r.votes[v] in z.removed <==> r.votes[v] in Removals(es)
    {
      assert Written(r, r.votes[v]);
    }
    assert KeptVotes(r.votes, z.removed) == KeptVotes(r.votes, Removals(es));
  }

  // Whatever workers, owners, players and moderators do, a round is harvested at
  // most once; and while its group is there, exactly when it is final, no worker
  // still owes it and its harvest has not failed.
  lemma HarvestedOnce(es: seq<Event>, id: RoundId)
    requires Run(START, es)
    ensures var s := End(START, es).store;
            Harvests(s.harvests, id) <= 1
            && (id in s.rounds ==>
                  (Harvests(s.harvests, id) == 1 <==> s.rounds[id].stage == Finalized && id !in s.owed && HarvestFailed(id) !in es))
  {
    hide Step, CanStep, Run, End;
    StartIsSound();
    RunSound(START, es);
    FailedMeans(START, es, id);
    assert AccountedFor(End(START, es), id);
  }

  // A state some run from the empty store leads to.
  ghost predicate Reached(w: Trace) {
    exists es :: Run(START, es) && End(START, es) == w
  }

  lemma ReachedIsSound(w: Trace)
    requires Reached(w)
    ensures Sound(w)
  {
    hide Sound, Step, CanStep, Run, End;
    var es :| Run(START, es) && End(START, es) == w;
    StartIsSound();
    RunSound(START, es);
  }

  // A harvest takes the answers and votes the round has then. Afterwards the round
  // is what was harvested less what moderators remove, and the very same exactly
  // when they remove none of it.
  lemma HarvestIsTheTally(w: Trace, id: RoundId, es: seq<Event>)
    requires Reached(w) && CanStep(w, Harvested(id)) && Run(Step(w, Harvested(id)), es)
    requires id in w.store.rounds && id in End(Step(w, Harvested(id)), es).store.rounds
    ensures var h, t := HarvestOf(w.store, id), End(Step(w, Harvested(id)), es).store.rounds[id];
            w.store.rounds[id].stage == Finalized
            && t == w.store.rounds[id].(answers := Kept(h.answers, Removals(es)), votes := KeptVotes(h.votes, Removals(es)))
            && ((t.answers == h.answers && t.votes == h.votes) <==> forall m :: m in h.answers ==> AnswerRemoved(h.answers[m].id) !in es)
  {
    hide Calendar, HarvestsHold, Run, End;
    ReachedIsSound(w);
    assert AccountedFor(w, id);
    var u := Step(w, Harvested(id));
    StepSound(w, Harvested(id));
    RevealedRoundOnlyLoses(u, es, id);
    var r := w.store.rounds[id];
    assert u.store.rounds[id] == r && SoundRound(r, w.removed);
    if forall m :: m in r.answers ==> AnswerRemoved(r.answers[m].id) !in es {
      forall v | v in r.votes
        ensures r.votes[v] !in Removals(es)
      {
        assert Written(r, r.votes[v]);
      }
      assert Kept(r.answers, Removals(es)) == r.answers && KeptVotes(r.votes, Removals(es)) == r.votes;
    } else {
      var m :| m in r.answers && AnswerRemoved(r.answers[m].id) in es;
      assert r.answers[m].id in Removals(es) && m !in Kept(r.answers, Removals(es));
    }
  }

  // Once someone has voted, no answer is added or edited any more and answers only
  // go when a moderator removes them; and every vote there ever is is for somebody
  // else's answer that is still there.
  lemma NoAnswerAfterVote(w: Trace, es: seq<Event>, id: RoundId)
    requires Reached(w) && Run(w, es) && id in w.store.rounds && w.store.rounds[id].votes != map[]
    ensures var s, t := w.store.rounds, End(w, es).store.rounds;
            (id in t <==> GroupDeleted(s[id].group) !in es)
            && (id in t ==>
                  t[id].answers == (map m | m in s[id].answers && AnswerRemoved(s[id].answers[m].id) !in es :: s[id].answers[m])
                  && forall v :: v in t[id].votes ==> exists m :: m in t[id].answers && m != v && t[id].answers[m].id == t[id].votes[v])
  {
    hide Step, CanStep, Calendar, Accounted, HarvestsHold, Run, End, Follows;
    ReachedIsSound(w);
    RunSound(w, es);
    StaysWithItsGroup(w, es, id);
    var r, t := w.store.rounds[id], End(w, es).store.rounds;
    assert r.stage != Open;
    if id in t {
      RevealedRoundOnlyLoses(w, es, id);
      assert SoundRound(t[id], End(w, es).removed);
      forall v | v in t[id].votes
        ensures exists m :: m in t[id].answers && m != v && t[id].answers[m].id == t[id].votes[v]
      {
        assert Written(t[id], t[id].votes[v]);
      }
    }
  }

  // A revealed round stays as long as its group, where its owner left it: no later
  // change of the reveal hour or time zone moves or reopens it, and its answers
  // are those it had less the ones moderators remove.
  lemma RevealedRoundStays(w: Trace, es: seq<Event>, id: RoundId)
    requires Reached(w) && Run(w, es) && id in w.store.rounds && w.store.rounds[id].stage != Open
    ensures var s, t := w.store.rounds, End(w, es).store.rounds;
            (id in t <==> GroupDeleted(s[id].group) !in es)
            && (id in t ==>
                  Rank(s[id].stage) <= Rank(t[id].stage) && SameHead(s[id], t[id])
                  && t[id].revealAt == s[id].revealAt && t[id].closesAt == s[id].closesAt
                  && t[id].answers == Kept(s[id].answers, Removals(es)))
  {
    hide Step, CanStep, Sound, Run, End, Kept, KeptVotes;
    ReachedIsSound(w);
    RunSound(w, es);
    StaysWithItsGroup(w, es, id);
    if id in End(w, es).store.rounds {
      assert FollowsIn(w, End(w, es), id);
      RevealedRoundOnlyLoses(w, es, id);
    }
  }
}
