// What the requests of the daily game accept and leave behind, one by one and over
// whole runs.
module DailyLaws {
  import opened Wrappers
  import opened DailyRounds
  import opened DailyRuns

  // --- one request ---

  // Nothing but this round differs, and in it no more than its answers and votes.
  ghost predicate OnlyRound(s: Store, t: Store, id: RoundId) {
    id in s.rounds && t.rounds.Keys == s.rounds.Keys && t.owed == s.owed && t.harvests == s.harvests
    && (forall other :: other in s.rounds && other != id ==> t.rounds[other] == s.rounds[other])
    && t.rounds[id].(answers := s.rounds[id].answers, votes := s.rounds[id].votes) == s.rounds[id]
  }

  ghost predicate OnlyEntry<K(!new), V(!new)>(a: map<K, V>, b: map<K, V>, key: K) {
    key in b && b.Keys == a.Keys + {key} && forall other :: other in a && other != key ==> b[other] == a[other]
  }

  ghost predicate Accepting(s: Store, id: RoundId, now: int) {
    id in s.rounds && s.rounds[id].stage == Open && now < s.rounds[id].revealAt
  }

  // An answer is taken exactly while its round is open and before its reveal. It is
  // then the member's, an earlier one having kept its id and time, and nobody
  // else's changes.
  lemma SubmitLaw(s: Store, id: RoundId, member: MemberId, newId: SubmissionId, text: string, now: int)
    ensures var r := Submit(s, id, member, newId, text, now);
            (r.error.None? <==> Accepting(s, id, now))
            && (r.error == Some(Unauthorized) <==> id !in s.rounds)
            && (r.error.Some? ==> r.store == s && r.error.value in {Unauthorized, RoundClosed})
            && (r.error.None? ==>
                  OnlyRound(s, r.store, id) && r.store.rounds[id].votes == s.rounds[id].votes
                  && OnlyEntry(s.rounds[id].answers, r.store.rounds[id].answers, member)
                  && var before, after := s.rounds[id].answers, r.store.rounds[id].answers;
                     after[member].text == text
                     && (member in before ==> after[member].id == before[member].id && after[member].submittedAt == before[member].submittedAt)
                     && (member !in before ==> after[member].id == newId && after[member].submittedAt == now))
  {
  }

  // A vote is taken exactly while the round is being voted on and before it closes,
  // for an answer of the round that is not the voter's. It replaces the voter's
  // earlier one and nobody else's.
  lemma VoteLaw(s: Store, id: RoundId, voter: MemberId, sid: SubmissionId, now: int)
    ensures var r := Vote(s, id, voter, sid, now);
            (r.error.None? <==>
               id in s.rounds && s.rounds[id].stage == Voting && now < s.rounds[id].closesAt
               && (exists m :: m in s.rounds[id].answers && s.rounds[id].answers[m].id == sid)
               && !(voter in s.rounds[id].answers && s.rounds[id].answers[voter].id == sid))
            && (r.error.Some? ==> r.store == s)
            && (r.error.None? ==>
                  OnlyRound(s, r.store, id) && r.store.rounds[id].answers == s.rounds[id].answers
                  && OnlyEntry(s.rounds[id].votes, r.store.rounds[id].votes, voter) && r.store.rounds[id].votes[voter] == sid)
  {
    if id in s.rounds {
      assert Written(s.rounds[id], sid) <==> exists m :: m in s.rounds[id].answers && s.rounds[id].answers[m].id == sid;
    }
  }

  // A new round is open and empty. Its reveal is at the group's hour, an hour after
  // opening if that is not later, and eighteen hours are left for voting.
  lemma EnsureLaw(s: Store, id: RoundId, group: GroupId, date: int, number: nat, prompt: string, opensAt: int, hourAt: int)
    requires id !in s.rounds
    ensures var t := EnsureRound(s, id, group, date, number, prompt, opensAt, hourAt);
            (t == s <==> exists other :: other in s.rounds && s.rounds[other].group == group && s.rounds[other].date == date)
            && (t != s ==>
                  OnlyEntry(s.rounds, t.rounds, id) && t.owed == s.owed && t.harvests == s.harvests
                  && var r := t.rounds[id];
                     r.group == group && r.date == date && r.number == number && r.prompt == prompt
                     && r.stage == Open && r.answers == map[] && r.votes == map[]
                     && r.opensAt == opensAt < r.revealAt && (opensAt < hourAt ==> r.revealAt == hourAt)
                     && (hourAt <= opensAt ==> r.revealAt == opensAt + 3600) && r.closesAt == r.revealAt + 64800)
  {
    assert HasRound(s, group, date) <==> exists other :: other in s.rounds && s.rounds[other].group == group && s.rounds[other].date == date;
    var t := EnsureRound(s, id, group, date, number, prompt, opensAt, hourAt);
    assert t != s ==> id in t.rounds;
  }

  ghost predicate OpenToday(r: Round, group: GroupId, date: int) {
    r.group == group && r.date == date && r.stage == Open
  }

  // Moving a group moves its round of the day while that is open, all or nothing,
  // and only its times.
  lemma RetimeLaw(s: Store, group: GroupId, date: int, opensAt: int, hourAt: int)
    ensures var t := Retime(s, group, date, opensAt, hourAt);
            var at := if opensAt < hourAt then hourAt else opensAt + 3600;
            (t.error.None? <==> forall id :: id in s.rounds && OpenToday(s.rounds[id], group, date) ==> s.rounds[id].opensAt < at)
            && (t.error.Some? ==> t.store == s)
            && (t.error.None? ==>
                  t.store.rounds.Keys == s.rounds.Keys && t.store.owed == s.owed && t.store.harvests == s.harvests
                  && forall id :: id in s.rounds ==>
                       t.store.rounds[id] == if OpenToday(s.rounds[id], group, date)
                                             then s.rounds[id].(revealAt := at, closesAt := at + 64800) else s.rounds[id])
  {
    assert forall id :: id in s.rounds ==> (IsTodays(s.rounds[id], group, date) <==> OpenToday(s.rounds[id], group, date));
  }

  ghost predicate Holds<K(!new), V(!new)>(a: map<K, V>, key: K, v: V) {
    key in a && a[key] == v
  }

  // Removing an answer removes it and the votes for it, and nothing else anywhere.
  lemma RemovalLaw(s: Store, sid: SubmissionId)
    ensures var t := RemoveAnswer(s, sid);
            (t.error.None? <==> exists id, m :: id in s.rounds && m in s.rounds[id].answers && s.rounds[id].answers[m].id == sid)
            && (t.error.Some? ==> t.store == s)
            && (t.error.None? ==>
                  t.store.rounds.Keys == s.rounds.Keys && t.store.owed == s.owed && t.store.harvests == s.harvests
                  && forall id :: id in s.rounds ==>
                       var r, q := s.rounds[id], t.store.rounds[id];
                       q.(answers := r.answers, votes := r.votes) == r
                       && (forall m, a :: Holds(q.answers, m, a) <==> Holds(r.answers, m, a) && a.id != sid)
                       && (forall v, x :: Holds(q.votes, v, x) <==> Holds(r.votes, v, x) && x != sid))
  {
    if Present(s, sid) {
      var id :| id in s.rounds && Written(s.rounds[id], sid);
    } else {
      forall id, m | id in s.rounds && m in s.rounds[id].answers
        ensures s.rounds[id].answers[m].id != sid
      {
        assert !Written(s.rounds[id], sid);
      }
    }
  }

  // --- whole runs ---

  // What a member has in a round.
  datatype Entry = Entry(answer: Option<Answer>, vote: Option<SubmissionId>)

  const NOTHING := Entry(None, None)

  ghost function EntryOf(s: Store, id: RoundId, m: MemberId): Entry {
    if id !in s.rounds then NOTHING
    else
      var r := s.rounds[id];
      Entry(if m in r.answers then Some(r.answers[m]) else None, if m in r.votes then Some(r.votes[m]) else None)
  }

  // What the requests of a run come to: the last text and the last vote the member
  // sent in time, unless an answer is removed or the group deleted afterwards.
  ghost function Noted(s: Store, e: Event, id: RoundId, m: MemberId, n: Entry): Entry {
    match e
    case Submitted(round, member, newId, text, now) =>
      if round != id || member != m || !Accepting(s, id, now) then n
      else if n.answer.None? then n.(answer := Some(Answer(newId, text, now)))
      else n.(answer := Some(Answer(n.answer.value.id, text, n.answer.value.submittedAt)))
    case Voted(round, voter, sid, now) =>
      if round == id && voter == m && Vote(s, id, voter, sid, now).error.None? then n.(vote := Some(sid)) else n
    case AnswerRemoved(sid) =>
      Entry(if n.answer.Some? && n.answer.value.id == sid then None else n.answer, if n.vote == Some(sid) then None else n.vote)
    case GroupDeleted(group) => if id in s.rounds && s.rounds[id].group == group then NOTHING else n
    case _ => n
  }

  ghost function AllNoted(w: Trace, es: seq<Event>, id: RoundId, m: MemberId, n: Entry): Entry
    decreases |es|
  {
    if es == [] then n else AllNoted(Step(w, es[0]), es[1..], id, m, Noted(w.store, es[0], id, m, n))
  }

  lemma EachNoted(w: Trace, e: Event, id: RoundId, m: MemberId)
    requires Sound(w) && CanStep(w, e)
    ensures EntryOf(Step(w, e).store, id, m) == Noted(w.store, e, id, m, EntryOf(w.store, id, m))
  {
    hide Sound, NextNumber, EntryOf, Submit, Vote, Retime, RemoveAnswer, DeleteGroup, EnsureRound, Execute;
    match e
    case Ensured(round, group, date, number, prompt, opensAt, hourAt) =>
      EnsureNoted(w.store, round, group, date, number, prompt, opensAt, hourAt, id, m);
    case Ran(statement) => StatementNoted(w.store, statement, id, m);
    case Harvested(_) => SameEntry(w.store, HarvestOne(w.store, e.id), id, m);
    case HarvestFailed(_) => SameEntry(w.store, GiveUp(w.store, e.id), id, m);
    case Submitted(round, member, newId, text, now) => SubmitNoted(w.store, round, member, newId, text, now, id, m);
    case Voted(round, voter, sid, now) => VoteNoted(w.store, round, voter, sid, now, id, m);
    case GroupMoved(group, date, opensAt, hourAt) => RetimeNoted(w.store, group, date, opensAt, hourAt, id, m);
    case GroupDeleted(group) => DeleteNoted(w.store, group, id, m);
    case AnswerRemoved(sid) => RemovalNoted(w, sid, id, m);
  }

  ghost function NotedAt(s: Store, e: Event, id: RoundId, m: MemberId): Entry {
    Noted(s, e, id, m, EntryOf(s, id, m))
  }

  lemma EnsureNoted(s: Store, round: RoundId, group: GroupId, date: int, number: nat, prompt: string, opensAt: int, hourAt: int,
                    id: RoundId, m: MemberId)
    requires round !in s.rounds
    ensures EntryOf(EnsureRound(s, round, group, date, number, prompt, opensAt, hourAt), id, m) == EntryOf(s, id, m)
  {
  }

  lemma StatementNoted(s: Store, statement: Statement, id: RoundId, m: MemberId)
    ensures EntryOf(Execute(s, statement), id, m) == EntryOf(s, id, m)
  {
  }

  lemma SameEntry(s: Store, t: Store, id: RoundId, m: MemberId)
    requires t.rounds == s.rounds
    ensures EntryOf(t, id, m) == EntryOf(s, id, m)
  {
  }

  lemma SubmitNoted(s: Store, round: RoundId, member: MemberId, newId: SubmissionId, text: string, now: int, id: RoundId, m: MemberId)
    ensures EntryOf(Submit(s, round, member, newId, text, now).store, id, m) == NotedAt(s, Submitted(round, member, newId, text, now), id, m)
  {
  }

  lemma VoteNoted(s: Store, round: RoundId, voter: MemberId, sid: SubmissionId, now: int, id: RoundId, m: MemberId)
    ensures EntryOf(Vote(s, round, voter, sid, now).store, id, m) == NotedAt(s, Voted(round, voter, sid, now), id, m)
  {
    hide Written;
  }

  lemma RetimeNoted(s: Store, group: GroupId, date: int, opensAt: int, hourAt: int, id: RoundId, m: MemberId)
    ensures EntryOf(Retime(s, group, date, opensAt, hourAt).store, id, m) == EntryOf(s, id, m)
  {
  }

  lemma DeleteNoted(s: Store, group: GroupId, id: RoundId, m: MemberId)
    ensures EntryOf(DeleteGroup(s, group), id, m) == NotedAt(s, GroupDeleted(group), id, m)
  {
  }

  lemma RemovalNoted(w: Trace, sid: SubmissionId, id: RoundId, m: MemberId)
    requires Sound(w)
    ensures EntryOf(RemoveAnswer(w.store, sid).store, id, m) == NotedAt(w.store, AnswerRemoved(sid), id, m)
  {
    hide SoundRound, Calendar, Accounted, HarvestsHold, Written, Present;
    if id in w.store.rounds && !Present(w.store, sid) {
      NotThere(w, sid, id);
    }
  }

  lemma NotThere(w: Trace, sid: SubmissionId, id: RoundId)
    requires RoundsSound(w) && id in w.store.rounds && !Present(w.store, sid)
    ensures var r := w.store.rounds[id];
            (forall m :: m in r.answers ==> r.answers[m].id != sid) && (forall v :: v in r.votes ==> r.votes[v] != sid)
  {
    var r := w.store.rounds[id];
    assert !Written(r, sid);
    assert forall v :: v in r.votes ==> Written(r, r.votes[v]);
  }

  // On every run the store has of every member what that member last sent in time.
  lemma {:induction false} LastSentIsKept(w: Trace, es: seq<Event>, id: RoundId, m: MemberId)
    requires Sound(w) && Run(w, es)
    ensures EntryOf(End(w, es).store, id, m) == AllNoted(w, es, id, m, EntryOf(w.store, id, m))
    decreases |es|
  {
    hide Sound, CanStep, Step, EntryOf, Noted, AllFollow;
    if es != [] {
      EachNoted(w, es[0], id, m);
      StepSound(w, es[0]);
      LastSentIsKept(Step(w, es[0]), es[1..], id, m);
    }
  }

  // The member sends another text in time.
  ghost predicate Sends(s: Store, e: Event, id: RoundId, m: MemberId) {
    e.Submitted? && e.id == id && e.member == m && Accepting(s, id, e.now)
  }

  ghost predicate Silent(w: Trace, es: seq<Event>, id: RoundId, m: MemberId)
    decreases |es|
  {
    es == [] || (!Sends(w.store, es[0], id, m) && Silent(Step(w, es[0]), es[1..], id, m))
  }

  lemma {:induction false} NothingSent(w: Trace, es: seq<Event>, id: RoundId, m: MemberId)
    requires Sound(w) && Run(w, es) && Silent(w, es, id, m) && EntryOf(w.store, id, m).answer.None?
    ensures EntryOf(End(w, es).store, id, m).answer.None?
    decreases |es|
  {
    hide Sound, CanStep, Step, EntryOf, AllFollow;
    if es != [] {
      EachNoted(w, es[0], id, m);
      StepSound(w, es[0]);
      NothingSent(Step(w, es[0]), es[1..], id, m);
    }
  }

  lemma StaysUnlessTaken(w: Trace, e: Event, id: RoundId, m: MemberId)
    requires Sound(w) && CanStep(w, e) && !Sends(w.store, e, id, m) && id in w.store.rounds && m in w.store.rounds[id].answers
    ensures var a := w.store.rounds[id].answers[m];
            var t := Step(w, e).store;
            if e == AnswerRemoved(a.id) || e == GroupDeleted(w.store.rounds[id].group) then EntryOf(t, id, m).answer.None?
            else id in t.rounds && m in t.rounds[id].answers && t.rounds[id].answers[m] == a && t.rounds[id].group == w.store.rounds[id].group
  {
    hide Sound, CanStep, Step, Accepting;
    EachNoted(w, e, id, m);
    StepSound(w, e);
    assert FollowsIn(w, Step(w, e), id);
  }

  // The text a member sends last in time stands to the end, exactly unless the answer
  // is removed or the group deleted.
  lemma {:induction false} LastTextStands(w: Trace, es: seq<Event>, id: RoundId, m: MemberId)
    requires Sound(w) && Run(w, es) && Silent(w, es, id, m) && id in w.store.rounds && m in w.store.rounds[id].answers
    ensures var a := w.store.rounds[id].answers[m];
            EntryOf(End(w, es).store, id, m).answer
            == if AnswerRemoved(a.id) in es || GroupDeleted(w.store.rounds[id].group) in es then None else Some(a)
    decreases |es|
  {
    hide Sound, CanStep, Step, Sends;
    if es != [] {
      var n := Step(w, es[0]);
      assert es == [es[0]] + es[1..];
      StaysUnlessTaken(w, es[0], id, m);
      StepSound(w, es[0]);
      if es[0] == AnswerRemoved(w.store.rounds[id].answers[m].id) || es[0] == GroupDeleted(w.store.rounds[id].group) {
        NothingSent(n, es[1..], id, m);
      } else {
        LastTextStands(n, es[1..], id, m);
      }
    }
  }

  ghost predicate TakenAt(w: Trace, es: seq<Event>, h: Harvest, k: nat) {
    k < |es| && es[k] == Harvested(h.round) && h == HarvestOf(End(w, es[..k]).store, h.round)
  }

  lemma {:induction false} RunTo(w: Trace, es: seq<Event>, k: nat)
    requires Run(w, es) && k <= |es|
    ensures Run(w, es[..k])
    decreases |es|
  {
    hide CanStep, Step;
    if k > 0 {
      RunTo(Step(w, es[0]), es[1..], k - 1);
      assert es[..k][1..] == es[1..][..k - 1];
    }
  }

  // Every harvest was made at some point of the run, of the round as it was then.
  lemma {:induction false} HarvestsAreTaken(w: Trace, es: seq<Event>, h: Harvest)
    requires h in End(w, es).store.harvests && h !in w.store.harvests
    ensures exists k: nat :: TakenAt(w, es, h, k)
    decreases |es|
  {
    hide HarvestOf;
    if es != [] {
      var n := Step(w, es[0]);
      if h in n.store.harvests {
        NewHarvest(w, es[0], h);
        assert es[..0] == [];
        assert TakenAt(w, es, h, 0);
      } else {
        HarvestsAreTaken(n, es[1..], h);
        var k: nat :| TakenAt(n, es[1..], h, k);
        assert es[..k + 1][1..] == es[1..][..k] && es[..k + 1][0] == es[0];
        assert TakenAt(w, es, h, k + 1);
      }
    }
  }

  lemma NewHarvest(w: Trace, e: Event, h: Harvest)
    requires h in Step(w, e).store.harvests && h !in w.store.harvests
    ensures e == Harvested(h.round) && h == HarvestOf(w.store, h.round)
  {
  }

  // So is every harvest of every run: of each member it has the text and the vote
  // that member last sent in time before it.
  lemma HarvestsHaveTheLastSent(es: seq<Event>, h: Harvest)
    requires Run(START, es) && h in End(START, es).store.harvests
    ensures exists k :: 0 <= k < |es| && es[k] == Harvested(h.round)
              && forall m ::
                   AllNoted(START, es[..k], h.round, m, NOTHING)
                   == Entry(if m in h.answers then Some(h.answers[m]) else None, if m in h.votes then Some(h.votes[m]) else None)
  {
    hide Sound, CanStep, Step, Noted, AllFollow, Run, End, AllNoted;
    HarvestsAreTaken(START, es, h);
    var k: nat :| TakenAt(START, es, h, k);
    RunTo(START, es, k);
    StartIsSound();
    forall m
      ensures AllNoted(START, es[..k], h.round, m, NOTHING)
           == Entry(if m in h.answers then Some(h.answers[m]) else None, if m in h.votes then Some(h.votes[m]) else None)
    {
      LastSentIsKept(START, es[..k], h.round, m);
    }
  }
}
