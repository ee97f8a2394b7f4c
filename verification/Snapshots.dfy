// What a viewer is shown of a room (snapshotLocked in
// backend/internal/realtime/room.go), and what no snapshot gives away.
module Snapshots {
  import opened Wrappers
  import opened Sequences
  import opened Cards
  import opened RoomTypes
  import opened RoomRules
  import opened RoomInvariant
  import opened RoomPreservation
  import opened SubmissionOrder

  // A player as clients see one: no guest token, and no hand but one's own.
  datatype PlayerView = PlayerView(
    id: Id, name: string, score: nat, connected: bool, isComputer: bool, isJudge: bool,
    submitted: bool, hand: seq<AnswerCard>)

  // Hidden stands for the placeholder card that carries the submission's own id
  // and the text "submitted".
  datatype AnswerView = Hidden(id: Id) | Shown(card: AnswerCard)

  datatype SubmissionView = SubmissionView(
    id: Id, playerId: Id, playerName: string, answer: AnswerView, submittedAt: int, isWinner: bool)

  datatype RoomSnapshot = RoomSnapshot(
    code: string, phase: Phase, roundNumber: nat, prompt: Option<PromptCard>, hostID: Id, judgeID: Id,
    scoreLimit: int, roundSeconds: int, maxPlayers: int, contentTier: Tier, phaseDeadline: Option<int>,
    players: seq<PlayerView>, submissions: seq<SubmissionView>, createdAt: int, updatedAt: int)

  // Content and authorship are hidden while answers come in, authorship alone
  // while the judge decides.
  function Redact(sub: Submission, phase: Phase): (v: SubmissionView)
    ensures v.id == sub.id && v.submittedAt == sub.submittedAt
  {
    match phase
    case Submitting => SubmissionView(sub.id, 0, "", Hidden(sub.id), sub.submittedAt, sub.isWinner)
    case Judging => SubmissionView(sub.id, 0, "", Shown(sub.answer), sub.submittedAt, sub.isWinner)
    case _ => SubmissionView(sub.id, sub.playerId, sub.playerName, Shown(sub.answer), sub.submittedAt, sub.isWinner)
  }

  function View(p: Player, submitted: bool, viewer: Id, id: Id): PlayerView {
    PlayerView(p.id, p.name, p.score, p.connected, p.isComputer, p.isJudge, submitted, if id == viewer then p.hand else [])
  }

  ghost function PlayerViews(players: map<Id, Player>, order: seq<Id>, subs: map<Id, Submission>, viewer: Id): (r: seq<PlayerView>)
    requires forall id :: id in order ==> id in players
    ensures |r| == |order|
    ensures forall i :: 0 <= i < |r| ==> r[i] == View(players[order[i]], HasSubmission(subs, order[i]), viewer, order[i])
  {
    seq(|order|, i requires 0 <= i < |order| => View(players[order[i]], HasSubmission(subs, order[i]), viewer, order[i]))
  }

  ghost predicate InTime(views: seq<SubmissionView>) {
    forall i, j :: 0 <= i < j < |views| ==> views[i].submittedAt <= views[j].submittedAt
  }

  // One view of each submission.
  ghost predicate Views(views: seq<SubmissionView>, subs: map<Id, Submission>, phase: Phase) {
    |views| == |subs|
    && (forall x :: x in views ==> x.id in subs && x == Redact(subs[x.id], phase))
    && (forall k :: k in subs ==> Redact(subs[k], phase) in views)
  }

  // The submissions are sorted by time alone, so cards played at the same instant
  // may come in either order.
  ghost predicate IsSnapshot(s: RoomState, viewer: Id, v: RoomSnapshot)
    requires Seated(s)
  {
    v == RoomSnapshot(s.code, s.phase, s.roundNumber, s.prompt, s.hostID, s.judgeID, s.scoreLimit, s.submitSecs,
                      s.maxPlayers, s.contentTier, s.phaseDeadline,
                      PlayerViews(s.players, s.order, s.submissions, viewer), v.submissions, s.createdAt, s.updatedAt)
    && InTime(v.submissions)
    && Views(v.submissions, s.submissions, s.phase)
  }

  // --- what a snapshot cannot tell apart ---

  // The same players in the same seats with the same public particulars.
  ghost predicate SameFaces(s: RoomState, t: RoomState, viewer: Id)
    requires Seated(s) && Seated(t)
  {
    s.code == t.code && s.phase == t.phase && s.roundNumber == t.roundNumber && s.prompt == t.prompt
    && s.hostID == t.hostID && s.judgeID == t.judgeID && s.scoreLimit == t.scoreLimit && s.submitSecs == t.submitSecs
    && s.maxPlayers == t.maxPlayers && s.contentTier == t.contentTier && s.phaseDeadline == t.phaseDeadline
    && s.createdAt == t.createdAt && s.updatedAt == t.updatedAt && s.order == t.order
    && (forall id :: id in s.order ==>
          var p, q := s.players[id], t.players[id];
          p.id == q.id && p.name == q.name && p.score == q.score && p.connected == q.connected
          && p.isComputer == q.isComputer && p.isJudge == q.isJudge && (id == viewer ==> p.hand == q.hand))
    && (forall id :: id in s.order ==> (HasSubmission(s.submissions, id) <==> HasSubmission(t.submissions, id)))
  }

  // The same submissions, at the same times, whatever is on them and whoever
  // played them.
  ghost predicate SameSlots(a: map<Id, Submission>, b: map<Id, Submission>) {
    a.Keys == b.Keys && forall k :: k in a ==> a[k].submittedAt == b[k].submittedAt && a[k].isWinner == b[k].isWinner
  }

  ghost predicate SameAnswers(a: map<Id, Submission>, b: map<Id, Submission>) {
    SameSlots(a, b) && forall k :: k in a && k in b ==> a[k].answer == b[k].answer
  }

  lemma ViewsAlike(views: seq<SubmissionView>, a: map<Id, Submission>, b: map<Id, Submission>, phase: Phase)
    requires Keyed(a) && Keyed(b) && Views(views, a, phase)
    requires (phase == Submitting && SameSlots(a, b)) || (phase == Judging && SameAnswers(a, b))
    ensures Views(views, b, phase)
  {
    assert |a| == |a.Keys| == |b.Keys| == |b|;
    assert forall k :: k in a ==> Redact(a[k], phase) == Redact(b[k], phase);
  }

  // While answers come in, one snapshot says nothing to a viewer of anybody else's
  // hand, of what has been played, or of who played which card: rooms that
  // differ in those - and in tokens, piles, timers and decks - show the viewer
  // the same snapshots. While the judge decides, it says nothing of who played
  // which card.
  lemma SnapshotsKeepSecrets(s: RoomState, t: RoomState, viewer: Id, v: RoomSnapshot)
    requires Seated(s) && Seated(t) && Keyed(s.submissions) && Keyed(t.submissions) && SameFaces(s, t, viewer)
    requires (s.phase == Submitting && SameSlots(s.submissions, t.submissions))
             || (s.phase == Judging && SameAnswers(s.submissions, t.submissions))
    ensures IsSnapshot(s, viewer, v) <==> IsSnapshot(t, viewer, v)
  {
    hide Keyed, Views, HasSubmission;
    assert PlayerViews(s.players, s.order, s.submissions, viewer) == PlayerViews(t.players, t.order, t.submissions, viewer);
    if IsSnapshot(s, viewer, v) {
      ViewsAlike(v.submissions, s.submissions, t.submissions, s.phase);
    }
    if IsSnapshot(t, viewer, v) {
      ViewsAlike(v.submissions, t.submissions, s.submissions, s.phase);
    }
  }

  // What a snapshot does show, whoever asks: every submission once, earliest first,
  // with its time and whether it won, its author exactly when the round is neither
  // being answered nor judged, its card exactly when it is not being answered; every
  // player in the order of the seats, as in the room, and whether he has a card on
  // the table; and of the hands the viewer's own alone.
  lemma WhatIsShown(s: RoomState, viewer: Id, v: RoomSnapshot)
    requires Valid(s) && IsSnapshot(s, viewer, v)
    ensures v.code == s.code && v.phase == s.phase && v.roundNumber == s.roundNumber && v.prompt == s.prompt
            && v.hostID == s.hostID && v.judgeID == s.judgeID && v.phaseDeadline == s.phaseDeadline
            && v.scoreLimit == s.scoreLimit && v.roundSeconds == s.submitSecs && v.maxPlayers == s.maxPlayers
            && v.contentTier == s.contentTier && v.createdAt == s.createdAt && v.updatedAt == s.updatedAt
    ensures ViewIds(v.submissions) == s.submissions.Keys && |v.submissions| == |s.submissions|
    ensures forall i, j :: 0 <= i < j < |v.submissions| ==> v.submissions[i].submittedAt <= v.submissions[j].submittedAt
    ensures forall x :: x in v.submissions ==>
              x.id in s.submissions
              && var sub := s.submissions[x.id];
                 x.submittedAt == sub.submittedAt && x.isWinner == sub.isWinner
                 && (x.playerId == sub.playerId <==> s.phase != Submitting && s.phase != Judging)
                 && x.playerName == (if x.playerId == sub.playerId then sub.playerName else "")
                 && (x.answer == Shown(sub.answer) <==> s.phase != Submitting)
                 && (x.answer == Hidden(sub.id) <==> s.phase == Submitting)
    ensures |v.players| == |s.order|
    ensures forall i :: 0 <= i < |v.players| ==>
              var p, q := v.players[i], s.players[s.order[i]];
              p.id == s.order[i] && p.name == q.name && p.score == q.score && p.connected == q.connected
              && p.isComputer == q.isComputer && p.isJudge == q.isJudge && p.hand == (if p.id == viewer then q.hand else [])
              && (p.submitted <==> exists k :: k in s.submissions && s.submissions[k].playerId == p.id)
  {
    hide Limits, DeckOk, JudgeFlags, Connections, SevenCards, Stage;
    IdsShown(v.submissions, s.submissions, s.phase);
  }

  ghost function ViewIds(views: seq<SubmissionView>): set<Id> {
    set x | x in views :: x.id
  }

  lemma IdsShown(views: seq<SubmissionView>, subs: map<Id, Submission>, phase: Phase)
    requires Views(views, subs, phase) && Keyed(subs)
    ensures ViewIds(views) == subs.Keys
  {
    forall k | k in subs
      ensures k in ViewIds(views)
    {
      assert Redact(subs[k], phase) in views;
    }
  }

  // --- what two snapshots can tell ---

  // A card going down shows in the next snapshot as one new submission and as one
  // player who has now submitted. Whoever sees the snapshots before and after knows
  // who played it, and its id and time stay on it when the cards are turned over.
  lemma TwoSnapshotsNameTheAuthor(s: RoomState, player: Id, answerId: string, now: int, viewer: Id, v: RoomSnapshot, w: RoomSnapshot)
    requires Valid(s) && SubmitAnswer(s, player, answerId, now).error.None? && IsSnapshot(s, viewer, v)
    requires var t := SubmitAnswer(s, player, answerId, now).room; Seated(t) && IsSnapshot(t, viewer, w)
    ensures var t := SubmitAnswer(s, player, answerId, now).room;
            var sid := s.entropy.nextId;
            ViewIds(w.submissions) - ViewIds(v.submissions) == {sid} && sid in t.submissions && t.submissions[sid].playerId == player
            && |v.players| == |w.players|
            && (forall i :: 0 <= i < |v.players| ==>
                  v.players[i].id == w.players[i].id && (v.players[i].submitted != w.players[i].submitted <==> v.players[i].id == player))
  {
    hide Limits, DeckOk, JudgeFlags, Connections, SevenCards, Stage, IsSnapshot, SubmitAnswer, Views, PlayerViews;
    var t := SubmitAnswer(s, player, answerId, now).room;
    CardShows(s, player, answerId, now);
    SnapshotParts(s, viewer, v);
    SnapshotParts(t, viewer, w);
    IdsShown(v.submissions, s.submissions, s.phase);
    IdsShown(w.submissions, t.submissions, t.phase);
    assert t.submissions.Keys - s.submissions.Keys == {s.entropy.nextId};
  }

  lemma SnapshotParts(s: RoomState, viewer: Id, v: RoomSnapshot)
    requires Seated(s) && IsSnapshot(s, viewer, v)
    ensures Views(v.submissions, s.submissions, s.phase) && |v.players| == |s.order|
    ensures forall i :: 0 <= i < |v.players| ==>
              v.players[i].id == s.players[s.order[i]].id && (v.players[i].submitted <==> HasSubmission(s.submissions, s.order[i]))
  {
    hide HasSubmission, Views;
  }

  lemma CardShows(s: RoomState, player: Id, answerId: string, now: int)
    requires Valid(s) && SubmitAnswer(s, player, answerId, now).error.None?
    ensures var t := SubmitAnswer(s, player, answerId, now).room; var sid := s.entropy.nextId;
            t.order == s.order && Seated(t) && Keyed(s.submissions) && Keyed(t.submissions)
            && sid !in s.submissions && t.submissions.Keys == s.submissions.Keys + {sid} && t.submissions[sid].playerId == player
            && (forall id :: id in s.order ==> id in s.players && s.players[id].id == id && t.players[id].id == id)
            && forall id :: (HasSubmission(s.submissions, id) != HasSubmission(t.submissions, id)) <==> id == player
  {
    hide Limits, DeckOk, JudgeFlags, Connections, SevenCards, Stage, PlayCard, HasSubmission, ScheduleComputerTurns, Touch;
    CardPlayedDown(s, player, answerId, now);
    var u := PlayCard(s, player, answerId, now).room;
    WrappedUp(u, now);
    OneMoreAuthor(s.submissions, s.entropy.nextId, u.submissions[s.entropy.nextId]);
  }

  lemma CardPlayedDown(s: RoomState, player: Id, answerId: string, now: int)
    requires Seated(s) && PlayCard(s, player, answerId, now).error.None?
    ensures var u := PlayCard(s, player, answerId, now).room; var sid := s.entropy.nextId;
            u.order == s.order && Seated(u) && sid in u.submissions && u.submissions == s.submissions[sid := u.submissions[sid]]
            && u.submissions[sid].id == sid && u.submissions[sid].playerId == player && !HasSubmission(s.submissions, player)
            && forall id :: id in s.players ==> id in u.players && u.players[id].id == s.players[id].id
  {
    hide HasSubmission, Persist;
  }

  lemma WrappedUp(s: RoomState, now: int)
    requires Seated(s)
    ensures var t := Touch(ScheduleComputerTurns(s), now);
            t.order == s.order && t.players == s.players && t.submissions == s.submissions
  {
    hide Persist, ComputerTurns;
  }

  lemma OneMoreAuthor(subs: map<Id, Submission>, sid: Id, sub: Submission)
    requires sid !in subs
    ensures forall id :: HasSubmission(subs[sid := sub], id) <==> HasSubmission(subs, id) || id == sub.playerId
  {
    var all := subs[sid := sub];
    forall id
      ensures HasSubmission(all, id) <==> HasSubmission(subs, id) || id == sub.playerId
    {
      assert all[sid] == sub;
      if HasSubmission(subs, id) {
        var k :| k in subs && subs[k].playerId == id;
        assert k in all && all[k].playerId == id;
      }
    }
  }

  // --- building one ---

  // The loops of snapshotLocked: redact each submission, in whatever order the
  // map gives them, and sort by time.
  method RedactAll(subs: map<Id, Submission>, phase: Phase) returns (views: seq<SubmissionView>)
    requires Keyed(subs)
    ensures InTime(views) && Views(views, subs, phase)
  {
    hide InTime, Redact, Views;
    views := [];
    var left := subs.Keys;
    NoViews(subs, phase);
    while left != {}
      invariant left <= subs.Keys && InTime(views) && Views(views, subs - left, phase)
      decreases |left|
    {
      var k :| k in left;
      OneLess(subs, left, k);
      views := InsertByTime(views, Redact(subs[k], phase), subs - left, subs[k], phase);
      left := left - {k};
    }
    assert subs - left == subs;
  }

  lemma NoViews(subs: map<Id, Submission>, phase: Phase)
    ensures InTime([]) && Views([], subs - subs.Keys, phase)
  {
    assert subs - subs.Keys == map[];
  }

  lemma OneLess(subs: map<Id, Submission>, left: set<Id>, k: Id)
    requires Keyed(subs) && k in left && left <= subs.Keys
    ensures subs - (left - {k}) == (subs - left)[k := subs[k]] && k !in subs - left && subs[k].id == k
  {
    assert (subs - (left - {k})).Keys == (subs - left)[k := subs[k]].Keys;
  }

  method InsertByTime(views: seq<SubmissionView>, x: SubmissionView, ghost seen: map<Id, Submission>,
                      ghost sub: Submission, ghost phase: Phase) returns (out: seq<SubmissionView>)
    requires InTime(views) && Views(views, seen, phase) && sub.id !in seen && x == Redact(sub, phase)
    ensures InTime(out) && Views(out, seen[sub.id := sub], phase)
  {
    hide Views, Redact;
    var at := 0;
    while at < |views| && views[at].submittedAt <= x.submittedAt
      invariant at <= |views| && forall i :: 0 <= i < at ==> views[i].submittedAt <= x.submittedAt
    {
      at := at + 1;
    }
    out := views[..at] + [x] + views[at..];
    ViewAdded(views, at, seen, sub, phase);
  }

  lemma ViewAdded(views: seq<SubmissionView>, at: nat, seen: map<Id, Submission>, sub: Submission, phase: Phase)
    requires at <= |views| && Views(views, seen, phase) && sub.id !in seen
    ensures Views(views[..at] + [Redact(sub, phase)] + views[at..], seen[sub.id := sub], phase)
  {
    hide Redact;
    var x := Redact(sub, phase);
    MembersWith(views, at, x);
    ViewsGrow(views, views[..at] + [x] + views[at..], seen, sub, phase);
  }

  lemma ViewsGrow(views: seq<SubmissionView>, out: seq<SubmissionView>, seen: map<Id, Submission>, sub: Submission, phase: Phase)
    requires Views(views, seen, phase) && sub.id !in seen && |out| == |views| + 1
    requires forall y :: y in out <==> y == Redact(sub, phase) || y in views
    ensures Views(out, seen[sub.id := sub], phase)
  {
    hide Redact;
    var all := seen[sub.id := sub];
    assert all.Keys == seen.Keys + {sub.id};
    forall y | y in out
      ensures y.id in all && y == Redact(all[y.id], phase)
    {
      assert y in views ==> y.id in seen;
    }
  }

  lemma MembersWith<T>(s: seq<T>, at: nat, x: T)
    requires at <= |s|
    ensures forall y :: y in s[..at] + [x] + s[at..] <==> y == x || y in s
    ensures |s[..at] + [x] + s[at..]| == |s| + 1
  {
    assert s == s[..at] + s[at..];
  }
}
