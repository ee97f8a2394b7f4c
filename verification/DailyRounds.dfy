// The daily game: one round a day for each group, open for answers, then for
// votes, then final (backend/internal/daily/service.go and promote.go). Each
// event below is one SQL statement or one transaction; workers and requests run
// them in any order, each by its own clock.
module DailyRounds {
  import opened Wrappers

  type RoundId = nat
  type GroupId = nat
  type MemberId = nat
  type SubmissionId = nat

  const HOUR := 3600
  const VOTING_WINDOW := 18 * HOUR

  datatype Stage = Open | Voting | Finalized

  datatype Answer = Answer(id: SubmissionId, text: string, submittedAt: int)

  datatype Round = Round(
    group: GroupId, date: int, number: nat, prompt: string, stage: Stage,
    opensAt: int, revealAt: int, closesAt: int,
    answers: map<MemberId, Answer>, votes: map<MemberId, SubmissionId>)

  // What promoteRoundCandidates finds when it reads a round: nothing, if the round
  // has gone with its group.
  datatype Harvest = Harvest(round: RoundId, answers: map<MemberId, Answer>, votes: map<MemberId, SubmissionId>)

  // `owed` are the rounds a worker has finalized and not yet tried to harvest.
  datatype Store = Store(rounds: map<RoundId, Round>, owed: multiset<RoundId>, harvests: seq<Harvest>)

  datatype DailyError = Unauthorized | RoundClosed | VotingClosed | NotFound | OwnSubmission | BreaksTimes

  // --- the clock of a round ---

  function Rank(s: Stage): nat {
    match s
    case Open => 0
    case Voting => 1
    case Finalized => 2
  }

  function Later(a: Stage, b: Stage): Stage {
    if Rank(a) >= Rank(b) then a else b
  }

  // What the deadlines alone make of a round at an instant.
  function DueStage(r: Round, now: int): Stage {
    if r.closesAt <= now then Finalized else if r.revealAt <= now then Voting else Open
  }

  predicate InScope(r: Round, scope: Option<GroupId>) {
    scope.None? || r.group == scope.value
  }

  // The two statements of advanceDue.
  function Revealed(r: Round, scope: Option<GroupId>, now: int): Round {
    if r.stage == Open && r.revealAt <= now && InScope(r, scope) then r.(stage := Voting) else r
  }

  predicate ToFinalize(r: Round, scope: Option<GroupId>, now: int) {
    r.stage == Voting && r.closesAt <= now && InScope(r, scope)
  }

  function Closed(r: Round, scope: Option<GroupId>, now: int): Round {
    if ToFinalize(r, scope, now) then r.(stage := Finalized) else r
  }

  function Reveal(s: Store, scope: Option<GroupId>, now: int): Store {
    s.(rounds := map id | id in s.rounds :: Revealed(s.rounds[id], scope, now))
  }

  function Due(s: Store, scope: Option<GroupId>, now: int): set<RoundId> {
    set id | id in s.rounds && ToFinalize(s.rounds[id], scope, now)
  }

  function Finalize(s: Store, scope: Option<GroupId>, now: int): Store {
    s.(rounds := map id | id in s.rounds :: Closed(s.rounds[id], scope, now),
       owed := s.owed + multiset(Due(s, scope, now)))
  }

  // advanceDue, its harvests still owed.
  function AdvanceDue(s: Store, scope: Option<GroupId>, now: int): Store {
    Finalize(Reveal(s, scope, now), scope, now)
  }

  function HarvestOf(s: Store, id: RoundId): Harvest {
    if id in s.rounds then Harvest(id, s.rounds[id].answers, s.rounds[id].votes) else Harvest(id, map[], map[])
  }

  function HarvestOne(s: Store, id: RoundId): Store {
    s.(owed := s.owed - multiset{id}, harvests := s.harvests + [HarvestOf(s, id)])
  }

  // A harvest that fails is logged and not tried again.
  function GiveUp(s: Store, id: RoundId): Store {
    s.(owed := s.owed - multiset{id})
  }

  // --- requests ---

  // The reveal instant for the group's hour; a reveal at opening time is put off
  // by an hour.
  function RevealAt(opensAt: int, hourAt: int): int {
    if hourAt <= opensAt then opensAt + HOUR else hourAt
  }

  predicate HasRound(s: Store, group: GroupId, date: int) {
    exists id :: id in s.rounds && s.rounds[id].group == group && s.rounds[id].date == date
  }

  // max(round_number) + 1
  ghost predicate NextNumber(s: Store, group: GroupId, number: nat) {
    number >= 1
    && (forall id :: id in s.rounds && s.rounds[id].group == group ==> s.rounds[id].number < number)
    && (number > 1 ==> exists id :: id in s.rounds && s.rounds[id].group == group && s.rounds[id].number == number - 1)
  }

  function EnsureRound(s: Store, id: RoundId, group: GroupId, date: int, number: nat, prompt: string, opensAt: int, hourAt: int): Store {
    if HasRound(s, group, date) then s
    else
      var revealAt := RevealAt(opensAt, hourAt);
      s.(rounds := s.rounds[id := Round(group, date, number, prompt, Open, opensAt, revealAt, revealAt + VOTING_WINDOW, map[], map[])])
  }

  datatype Reply = Reply(store: Store, error: Option<DailyError>)

  predicate IsTodays(r: Round, group: GroupId, date: int) {
    r.group == group && r.stage == Open && r.date == date
  }

  function Retimed(r: Round, group: GroupId, date: int, revealAt: int): Round {
    if IsTodays(r, group, date) then r.(revealAt := revealAt, closesAt := revealAt + VOTING_WINDOW) else r
  }

  // UpdateGroup: today's round moves if it is still open. In a new time zone the
  // reveal can fall before the round opened; the table refuses that, and the
  // whole update with it.
  function Retime(s: Store, group: GroupId, date: int, opensAt: int, hourAt: int): Reply {
    var revealAt := RevealAt(opensAt, hourAt);
    if exists id :: id in s.rounds && IsTodays(s.rounds[id], group, date) && s.rounds[id].opensAt >= revealAt
    then Reply(s, Some(BreaksTimes))
    else Reply(s.(rounds := map id | id in s.rounds :: Retimed(s.rounds[id], group, date, revealAt)), None)
  }

  // A second answer replaces the text of the first and keeps its id and time.
  function Submit(s: Store, id: RoundId, member: MemberId, newId: SubmissionId, text: string, now: int): Reply {
    if id !in s.rounds then Reply(s, Some(Unauthorized))
    else
      var r := s.rounds[id];
      if r.stage != Open || now >= r.revealAt then Reply(s, Some(RoundClosed))
      else
        var a := if member in r.answers then r.answers[member].(text := text) else Answer(newId, text, now);
        Reply(s.(rounds := s.rounds[id := r.(answers := r.answers[member := a])]), None)
  }

  predicate Written(r: Round, sid: SubmissionId) {
    exists m :: m in r.answers && r.answers[m].id == sid
  }

  function Vote(s: Store, id: RoundId, voter: MemberId, sid: SubmissionId, now: int): Reply {
    if id !in s.rounds then Reply(s, Some(Unauthorized))
    else
      var r := s.rounds[id];
      if r.stage != Voting || now >= r.closesAt then Reply(s, Some(VotingClosed))
      else if !Written(r, sid) then Reply(s, Some(NotFound))
      else if voter in r.answers && r.answers[voter].id == sid then Reply(s, Some(OwnSubmission))
      else Reply(s.(rounds := s.rounds[id := r.(votes := r.votes[voter := sid])]), None)
  }

  // The owner deletes the group; its rounds go with it, with their answers and votes.
  function DeleteGroup(s: Store, group: GroupId): Store {
    s.(rounds := map id | id in s.rounds && s.rounds[id].group != group :: s.rounds[id])
  }

  // Answers, and the votes for them, without those removed.
  function Kept(answers: map<MemberId, Answer>, removed: set<SubmissionId>): map<MemberId, Answer> {
    map m | m in answers && answers[m].id !in removed :: answers[m]
  }

  function KeptVotes(votes: map<MemberId, SubmissionId>, removed: set<SubmissionId>): map<MemberId, SubmissionId> {
    map v | v in votes && votes[v] !in removed :: votes[v]
  }

  function Stripped(r: Round, removed: set<SubmissionId>): Round {
    r.(answers := Kept(r.answers, removed), votes := KeptVotes(r.votes, removed))
  }

  predicate Present(s: Store, sid: SubmissionId) {
    exists id :: id in s.rounds && Written(s.rounds[id], sid)
  }

  // DeleteDailySubmission of the content service: a moderator takes an answer out,
  // whatever the stage of its round, and the votes for it go too.
  function RemoveAnswer(s: Store, sid: SubmissionId): Reply {
    if !Present(s, sid) then Reply(s, Some(NotFound))
    else Reply(s.(rounds := map id | id in s.rounds :: Stripped(s.rounds[id], {sid})), None)
  }

  // --- advancement is a join ---

  ghost predicate WellTimed(s: Store) {
    forall id :: id in s.rounds ==> s.rounds[id].revealAt < s.rounds[id].closesAt
  }

  // Where a round's deadlines say it should be by now, and never back.
  function Advanced(r: Round, scope: Option<GroupId>, now: int): Round {
    r.(stage := if InScope(r, scope) then Later(r.stage, DueStage(r, now)) else r.stage)
  }

  // The rounds a call makes final.
  predicate FallsDue(r: Round, scope: Option<GroupId>, now: int) {
    r.stage != Finalized && r.closesAt <= now && InScope(r, scope)
  }

  ghost function FallingDue(s: Store, scope: Option<GroupId>, now: int): set<RoundId> {
    set id | id in s.rounds && FallsDue(s.rounds[id], scope, now)
  }

  // advanceDue is a join: each round in scope moves to the later of where it was
  // and where its deadlines put it, the rest of the round and all other rounds
  // stay, and the rounds that become final are owed a harvest, each once.
  lemma AdvanceIsJoin(s: Store, scope: Option<GroupId>, now: int)
    requires WellTimed(s)
    ensures var t := AdvanceDue(s, scope, now);
            WellTimed(t) && t.rounds.Keys == s.rounds.Keys && t.harvests == s.harvests
            && (forall id :: id in s.rounds ==> t.rounds[id] == Advanced(s.rounds[id], scope, now))
            && t.owed == s.owed + multiset(FallingDue(s, scope, now))
  {
    hide Revealed, Closed, ToFinalize, Advanced, FallsDue;
    var t := AdvanceDue(s, scope, now);
    forall id | id in s.rounds
      ensures t.rounds[id] == Advanced(s.rounds[id], scope, now) && t.rounds[id].revealAt < t.rounds[id].closesAt
      ensures ToFinalize(Revealed(s.rounds[id], scope, now), scope, now) <==> FallsDue(s.rounds[id], scope, now)
    {
      BothStatements(s.rounds[id], scope, now);
    }
    assert Due(Reveal(s, scope, now), scope, now) == FallingDue(s, scope, now);
  }

  lemma BothStatements(r: Round, scope: Option<GroupId>, now: int)
    requires r.revealAt < r.closesAt
    ensures Closed(Revealed(r, scope, now), scope, now) == Advanced(r, scope, now)
    ensures ToFinalize(Revealed(r, scope, now), scope, now) <==> FallsDue(r, scope, now)
    ensures Advanced(r, scope, now).revealAt < Advanced(r, scope, now).closesAt
  {
  }

  lemma JoinsCommute(r: Round, scope: Option<GroupId>, now: int, scope': Option<GroupId>, now': int)
    requires r.revealAt < r.closesAt
    ensures Advanced(Advanced(r, scope, now), scope', now') == Advanced(Advanced(r, scope', now'), scope, now)
    ensures FallsDue(Advanced(r, scope, now), scope', now') <==> FallsDue(r, scope', now') && !FallsDue(r, scope, now)
  {
  }

  lemma SameRounds(a: map<RoundId, Round>, b: map<RoundId, Round>)
    requires a.Keys == b.Keys && forall id :: id in a ==> a[id] == b[id]
    ensures a == b
  {
  }

  // Two calls with any clocks and scopes leave the same rounds and owe the same
  // harvests in either order.
  lemma AdvancesCommute(s: Store, scope: Option<GroupId>, now: int, scope': Option<GroupId>, now': int)
    requires WellTimed(s)
    ensures AdvanceDue(AdvanceDue(s, scope, now), scope', now') == AdvanceDue(AdvanceDue(s, scope', now'), scope, now)
  {
    hide AdvanceDue, Advanced, FallsDue, FallingDue;
    var a, b := AdvanceDue(s, scope, now), AdvanceDue(s, scope', now');
    AdvanceIsJoin(s, scope, now);
    AdvanceIsJoin(s, scope', now');
    AdvanceIsJoin(a, scope', now');
    AdvanceIsJoin(b, scope, now);
    var x, y := AdvanceDue(a, scope', now'), AdvanceDue(b, scope, now);
    forall id | id in s.rounds
      ensures x.rounds[id] == y.rounds[id]
    {
      JoinsCommute(s.rounds[id], scope, now, scope', now');
    }
    SameRounds(x.rounds, y.rounds);
    OwedEitherWay(s, scope, now, scope', now');
    SameSum(s.owed, multiset(FallingDue(s, scope, now)), multiset(FallingDue(a, scope', now')),
            multiset(FallingDue(s, scope', now')), multiset(FallingDue(b, scope, now)));
  }

  lemma SameSum<T>(o: multiset<T>, a: multiset<T>, b: multiset<T>, c: multiset<T>, d: multiset<T>)
    requires a + b == c + d
    ensures o + a + b == o + c + d
  {
    assert o + a + b == o + (a + b);
    assert o + c + d == o + (c + d);
  }

  lemma OwedAfter(s: Store, scope: Option<GroupId>, now: int, scope': Option<GroupId>, now': int)
    requires WellTimed(s)
    ensures FallingDue(AdvanceDue(s, scope, now), scope', now') == FallingDue(s, scope', now') - FallingDue(s, scope, now)
  {
    hide AdvanceDue, Advanced, FallsDue;
    AdvanceIsJoin(s, scope, now);
    var a := AdvanceDue(s, scope, now);
    forall id | id in s.rounds
      ensures FallsDue(a.rounds[id], scope', now') <==> FallsDue(s.rounds[id], scope', now') && !FallsDue(s.rounds[id], scope, now)
    {
      JoinsCommute(s.rounds[id], scope, now, scope', now');
    }
  }

  lemma OwedEitherWay(s: Store, scope: Option<GroupId>, now: int, scope': Option<GroupId>, now': int)
    requires WellTimed(s)
    ensures multiset(FallingDue(s, scope, now)) + multiset(FallingDue(AdvanceDue(s, scope, now), scope', now'))
         == multiset(FallingDue(s, scope', now')) + multiset(FallingDue(AdvanceDue(s, scope', now'), scope, now))
  {
    hide AdvanceDue, FallingDue;
    OwedAfter(s, scope, now, scope', now');
    OwedAfter(s, scope', now', scope, now);
    SumEitherWay(FallingDue(s, scope, now), FallingDue(s, scope', now'));
  }

  lemma SumEitherWay(p: set<RoundId>, q: set<RoundId>)
    ensures multiset(p) + multiset(q - p) == multiset(q) + multiset(p - q)
  {
  }

  // Calling again with a clock no later does nothing.
  lemma AdvanceIsIdempotent(s: Store, scope: Option<GroupId>, now: int, earlier: int)
    requires WellTimed(s) && earlier <= now
    ensures AdvanceDue(AdvanceDue(s, scope, now), scope, earlier) == AdvanceDue(s, scope, now)
  {
    hide AdvanceDue, Advanced, FallsDue;
    var a := AdvanceDue(s, scope, now);
    AdvanceIsJoin(s, scope, now);
    AdvanceIsJoin(a, scope, earlier);
    forall id | id in s.rounds
      ensures Advanced(a.rounds[id], scope, earlier) == a.rounds[id] && !FallsDue(a.rounds[id], scope, earlier)
    {
      AdvancedAgain(s.rounds[id], scope, now, earlier);
    }
    SameRounds(a.rounds, AdvanceDue(a, scope, earlier).rounds);
    assert FallingDue(a, scope, earlier) == {};
  }

  lemma AdvancedAgain(r: Round, scope: Option<GroupId>, now: int, earlier: int)
    requires r.revealAt < r.closesAt && earlier <= now
    ensures Advanced(Advanced(r, scope, now), scope, earlier) == Advanced(r, scope, now)
    ensures !FallsDue(Advanced(r, scope, now), scope, earlier)
  {
  }

  // --- statements of many workers, interleaved ---

  // A call of advanceDue is a reveal and then a finalize; other workers' statements
  // may run in between.
  datatype Statement =
    | RevealDue(scope: Option<GroupId>, now: int)
    | FinalizeDue(scope: Option<GroupId>, now: int)

  function Execute(s: Store, st: Statement): Store {
    match st
    case RevealDue(scope, now) => Reveal(s, scope, now)
    case FinalizeDue(scope, now) => Finalize(s, scope, now)
  }

  function ExecuteAll(s: Store, sts: seq<Statement>): Store {
    if sts == [] then s else Execute(ExecuteAll(s, sts[..|sts| - 1]), sts[|sts| - 1])
  }

  // Every finalize comes after its own call's reveal.
  ghost predicate RevealsFirst(sts: seq<Statement>) {
    forall i :: 0 <= i < |sts| && sts[i].FinalizeDue? ==> RevealDue(sts[i].scope, sts[i].now) in sts[..i]
  }

  predicate TurnsOver(r: Round, st: Statement) {
    st.RevealDue? && r.revealAt <= st.now && InScope(r, st.scope)
  }

  predicate Closes(r: Round, st: Statement) {
    st.FinalizeDue? && r.closesAt <= st.now && InScope(r, st.scope)
  }

  // Where the statements leave a round, in whatever order they run.
  function StageAfter(r: Round, sts: seq<Statement>): Stage {
    if r.stage == Finalized || exists st :: st in sts && Closes(r, st) then Finalized
    else if r.stage == Voting || exists st :: st in sts && TurnsOver(r, st) then Voting
    else Open
  }

  ghost function MadeFinal(s: Store, sts: seq<Statement>): set<RoundId> {
    set id | id in s.rounds && s.rounds[id].stage != Finalized && StageAfter(s.rounds[id], sts) == Finalized
  }

  function Effect(r: Round, st: Statement): Round {
    match st
    case RevealDue(scope, now) => Revealed(r, scope, now)
    case FinalizeDue(scope, now) => Closed(r, scope, now)
  }

  lemma InSnoc(sts: seq<Statement>, st: Statement)
    requires sts != []
    ensures st in sts <==> st in sts[..|sts| - 1] || st == sts[|sts| - 1]
  {
    assert sts == sts[..|sts| - 1] + [sts[|sts| - 1]];
  }

  lemma StageAfterSnoc(r: Round, sts: seq<Statement>)
    requires r.revealAt < r.closesAt && RevealsFirst(sts) && sts != []
    ensures Effect(r.(stage := StageAfter(r, sts[..|sts| - 1])), sts[|sts| - 1]) == r.(stage := StageAfter(r, sts))
  {
    var front, last := sts[..|sts| - 1], sts[|sts| - 1];
    forall st
      ensures st in sts <==> st in front || st == last
    {
      InSnoc(sts, st);
    }
    assert (exists st :: st in sts && Closes(r, st)) <==> Closes(r, last) || exists st :: st in front && Closes(r, st);
    assert (exists st :: st in sts && TurnsOver(r, st)) <==> TurnsOver(r, last) || exists st :: st in front && TurnsOver(r, st);
    if Closes(r, last) {
      var turn := RevealDue(last.scope, last.now);
      assert turn in front && TurnsOver(r, turn);
    }
  }

  lemma FinalSnoc(s: Store, sts: seq<Statement>)
    requires WellTimed(s) && RevealsFirst(sts) && sts != [] && sts[|sts| - 1].FinalizeDue?
    ensures forall id :: id in s.rounds ==>
              (id in MadeFinal(s, sts) <==>
                 id in MadeFinal(s, sts[..|sts| - 1])
                 || ToFinalize(s.rounds[id].(stage := StageAfter(s.rounds[id], sts[..|sts| - 1])), sts[|sts| - 1].scope, sts[|sts| - 1].now))
  {
    hide StageAfter, RevealsFirst;
    forall id | id in s.rounds
      ensures id in MadeFinal(s, sts) <==>
                id in MadeFinal(s, sts[..|sts| - 1])
                || ToFinalize(s.rounds[id].(stage := StageAfter(s.rounds[id], sts[..|sts| - 1])), sts[|sts| - 1].scope, sts[|sts| - 1].now)
    {
      StageAfterSnoc(s.rounds[id], sts);
      StartsThere(s.rounds[id], sts[..|sts| - 1]);
    }
  }

  lemma StartsThere(r: Round, sts: seq<Statement>)
    ensures r.stage == Finalized ==> StageAfter(r, sts) == Finalized
  {
  }

  // Any number of calls, their statements interleaved in any way: each round ends
  // where the whole set of statements puts it, nothing else about it changes, and
  // each round made final is owed one harvest.
  lemma {:induction false} StatementsJoin(s: Store, sts: seq<Statement>)
    requires WellTimed(s) && RevealsFirst(sts)
    ensures var t := ExecuteAll(s, sts);
            t.rounds.Keys == s.rounds.Keys && t.harvests == s.harvests
            && (forall id :: id in s.rounds ==> t.rounds[id] == s.rounds[id].(stage := StageAfter(s.rounds[id], sts)))
            && t.owed == s.owed + multiset(MadeFinal(s, sts))
  {
    if sts == [] {
      assert MadeFinal(s, sts) == {};
    } else {
      var front, last := sts[..|sts| - 1], sts[|sts| - 1];
      assert RevealsFirst(front) by {
        forall i | 0 <= i < |front| && front[i].FinalizeDue?
          ensures RevealDue(front[i].scope, front[i].now) in front[..i]
        {
          assert front[..i] == sts[..i] && front[i] == sts[i];
        }
      }
      StatementsJoin(s, front);
      OneMore(s, sts);
    }
  }

  lemma OneMore(s: Store, sts: seq<Statement>)
    requires WellTimed(s) && RevealsFirst(sts) && sts != []
    requires var m := ExecuteAll(s, sts[..|sts| - 1]);
             m.rounds.Keys == s.rounds.Keys && m.harvests == s.harvests
             && (forall id :: id in s.rounds ==> m.rounds[id] == s.rounds[id].(stage := StageAfter(s.rounds[id], sts[..|sts| - 1])))
             && m.owed == s.owed + multiset(MadeFinal(s, sts[..|sts| - 1]))
    ensures var t := ExecuteAll(s, sts);
            t.rounds.Keys == s.rounds.Keys && t.harvests == s.harvests
            && (forall id :: id in s.rounds ==> t.rounds[id] == s.rounds[id].(stage := StageAfter(s.rounds[id], sts)))
            && t.owed == s.owed + multiset(MadeFinal(s, sts))
  {
    hide StageAfter, RevealsFirst, Revealed, ToFinalize, Closed;
    var front, last := sts[..|sts| - 1], sts[|sts| - 1];
    var m, t := ExecuteAll(s, front), ExecuteAll(s, sts);
    assert t == Execute(m, last);
    forall id | id in s.rounds
      ensures t.rounds[id] == Effect(m.rounds[id], last)
      ensures t.rounds[id] == s.rounds[id].(stage := StageAfter(s.rounds[id], sts))
    {
      StageAfterSnoc(s.rounds[id], sts);
    }
    OwedSnoc(s, sts, m, t);
  }

  lemma OwedSnoc(s: Store, sts: seq<Statement>, m: Store, t: Store)
    requires WellTimed(s) && RevealsFirst(sts) && sts != [] && t == Execute(m, sts[|sts| - 1])
    requires m.rounds.Keys == s.rounds.Keys
    requires forall id :: id in s.rounds ==> m.rounds[id] == s.rounds[id].(stage := StageAfter(s.rounds[id], sts[..|sts| - 1]))
    requires forall id :: id in s.rounds ==> t.rounds[id] == s.rounds[id].(stage := StageAfter(s.rounds[id], sts))
    requires m.owed == s.owed + multiset(MadeFinal(s, sts[..|sts| - 1]))
    ensures t.owed == s.owed + multiset(MadeFinal(s, sts))
  {
    hide StageAfter, RevealsFirst, Closed;
    var front, last := sts[..|sts| - 1], sts[|sts| - 1];
    if last.RevealDue? {
      forall id | id in s.rounds
        ensures m.rounds[id].stage == Finalized <==> t.rounds[id].stage == Finalized
      {
        assert t.rounds[id] == Revealed(m.rounds[id], last.scope, last.now);
      }
      assert MadeFinal(s, sts) == MadeFinal(s, front);
    } else {
      FinalSnoc(s, sts);
      var due := Due(m, last.scope, last.now);
      assert MadeFinal(s, sts) == MadeFinal(s, front) + due;
      assert MadeFinal(s, front) !! due;
      DisjointSum(s.owed, MadeFinal(s, front), due);
    }
  }

  lemma DisjointSum(o: multiset<RoundId>, a: set<RoundId>, b: set<RoundId>)
    requires a !! b
    ensures o + multiset(a) + multiset(b) == o + multiset(a + b)
  {
    assert multiset(a) + multiset(b) == multiset(a + b);
    assert o + multiset(a) + multiset(b) == o + (multiset(a) + multiset(b));
  }

  // Two interleavings of the same statements leave the same store.
  lemma InterleavingsAgree(s: Store, a: seq<Statement>, b: seq<Statement>)
    requires WellTimed(s) && RevealsFirst(a) && RevealsFirst(b) && forall st :: st in a <==> st in b
    ensures ExecuteAll(s, a) == ExecuteAll(s, b)
  {
    hide RevealsFirst, StageAfter;
    StatementsJoin(s, a);
    StatementsJoin(s, b);
    forall id | id in s.rounds
      ensures StageAfter(s.rounds[id], a) == StageAfter(s.rounds[id], b)
    {
      SameStatements(s.rounds[id], a, b);
    }
    SameRounds(ExecuteAll(s, a).rounds, ExecuteAll(s, b).rounds);
    assert MadeFinal(s, a) == MadeFinal(s, b);
  }

  lemma SameStatements(r: Round, a: seq<Statement>, b: seq<Statement>)
    requires forall st :: st in a <==> st in b
    ensures StageAfter(r, a) == StageAfter(r, b)
  {
  }
}
