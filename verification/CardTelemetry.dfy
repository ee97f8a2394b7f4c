// Counting how cards do in play (backend/internal/telemetry/cards.go): a bounded
// buffer that never blocks, batches taken from it, and batches written out.
module CardTelemetry {

  // Each metric has its own counter column.
  datatype Metric = PromptPlayed | PromptSkipped | AnswerPlayed | AnswerWon

  datatype CardEvent = CardEvent(metric: Metric, uuid: string)

  type Bag = multiset<CardEvent>

  // --- the account ---

  // Everything recorded went out in a statement that succeeded, was lost in one that
  // failed, was turned away at a full buffer, or is still buffered or pending. A
  // statement counts its whole group, whether or not a card still has its row.
  ghost predicate Balanced(recorded: Bag, written: Bag, lost: Bag, refused: Bag, buffered: Bag, pending: Bag) {
    recorded == written + lost + refused + buffered + pending
  }

  lemma Accepted(recorded: Bag, written: Bag, lost: Bag, refused: Bag, events: seq<CardEvent>, pending: Bag, e: CardEvent)
    requires Balanced(recorded, written, lost, refused, multiset(events), pending)
    ensures Balanced(recorded + multiset{e}, written, lost, refused, multiset(events + [e]), pending)
  {
    assert multiset(events + [e]) == multiset(events) + multiset{e};
  }

  lemma TurnedAway(recorded: Bag, written: Bag, lost: Bag, refused: Bag, buffered: Bag, pending: Bag, e: CardEvent)
    requires Balanced(recorded, written, lost, refused, buffered, pending)
    ensures Balanced(recorded + multiset{e}, written, lost, refused + multiset{e}, buffered, pending)
  {
  }

  lemma TakenOut(recorded: Bag, written: Bag, lost: Bag, refused: Bag, events: seq<CardEvent>, pending: Bag)
    requires events != [] && Balanced(recorded, written, lost, refused, multiset(events), pending)
    ensures Balanced(recorded, written, lost, refused, multiset(events[1..]), pending + multiset{events[0]})
    ensures multiset(events) == multiset(events[1..]) + multiset{events[0]}
  {
    assert events == [events[0]] + events[1..];
  }

  lemma Settled(recorded: Bag, written: Bag, lost: Bag, refused: Bag, buffered: Bag, batch: Bag, through: Bag, gone: Bag)
    requires Balanced(recorded, written, lost, refused, buffered, batch) && batch == through + gone
    ensures Balanced(recorded, written + through, lost + gone, refused, buffered, multiset{})
  {
  }

  // --- groups ---

  type Groups = map<Metric, Bag>

  function Group(groups: Groups, m: Metric): Bag {
    if m in groups then groups[m] else multiset{}
  }

  // The groups hold the bag's events, each in the group of its metric.
  ghost predicate Holds(groups: Groups, bag: Bag) {
    (forall e: CardEvent :: Group(groups, e.metric)[e] == bag[e])
    && forall m :: m in groups ==> forall e :: e in groups[m] ==> e.metric == m
  }

  function Copies(e: CardEvent, n: nat): Bag {
    multiset{}[e := n]
  }

  lemma GroupGrows(groups: Groups, bag: Bag, e: CardEvent, n: nat)
    requires Holds(groups, bag)
    ensures Holds(groups[e.metric := Group(groups, e.metric) + Copies(e, n)], bag + Copies(e, n))
  {
    hide Group;
    var more := Copies(e, n);
    forall x: CardEvent
      ensures Group(groups[e.metric := Group(groups, e.metric) + more], x.metric)[x] == (bag + more)[x]
    {
      assert Group(groups, x.metric)[x] == bag[x];
      OneGrown(groups, e, n, x);
    }
    OwnEvents(groups, bag, e.metric);
  }

  lemma OneGrown(groups: Groups, e: CardEvent, n: nat, x: CardEvent)
    ensures Group(groups[e.metric := Group(groups, e.metric) + Copies(e, n)], x.metric)[x]
         == Group(groups, x.metric)[x] + Copies(e, n)[x]
  {
  }

  lemma OwnEvents(groups: Groups, bag: Bag, m: Metric)
    requires Holds(groups, bag)
    ensures forall x :: x in Group(groups, m) ==> x.metric == m
  {
  }

  lemma GroupWithin(groups: Groups, bag: Bag, m: Metric)
    requires Holds(groups, bag) && m in groups
    ensures forall e :: groups[m][e] == if e.metric == m then bag[e] else 0
  {
    forall e: CardEvent
      ensures groups[m][e] == if e.metric == m then bag[e] else 0
    {
      if e in groups[m] {
        assert Group(groups, e.metric)[e] == bag[e];
      } else if e.metric == m {
        assert Group(groups, e.metric)[e] == bag[e];
      }
    }
  }

  lemma TakeAway(bag: Bag, x: Bag)
    requires forall e :: x[e] <= bag[e]
    ensures bag == (bag - x) + x
    ensures forall e :: (bag - x)[e] == bag[e] - x[e]
  {
  }

  lemma GroupTaken(groups: Groups, bag: Bag, m: Metric)
    requires Holds(groups, bag) && m in groups
    ensures Holds(groups - {m}, bag - groups[m]) && bag == (bag - groups[m]) + groups[m]
    ensures |groups - {m}| < |groups|
  {
    hide Holds;
    GroupWithin(groups, bag, m);
    TakeAway(bag, groups[m]);
    OthersHeld(groups, bag, m, bag - groups[m]);
    assert groups.Keys == (groups - {m}).Keys + {m};
  }

  lemma OthersHeld(groups: Groups, bag: Bag, m: Metric, rest: Bag)
    requires Holds(groups, bag) && m in groups
    requires forall e :: rest[e] == bag[e] - groups[m][e]
    requires forall e :: groups[m][e] == if e.metric == m then bag[e] else 0
    ensures Holds(groups - {m}, rest)
  {
    hide Group;
    forall e: CardEvent
      ensures Group(groups - {m}, e.metric)[e] == rest[e]
    {
      assert Group(groups, e.metric)[e] == bag[e];
      assert groups[m][e] == if e.metric == m then bag[e] else 0;
      OneHeld(groups, m, e);
    }
  }

  lemma OneHeld(groups: Groups, m: Metric, e: CardEvent)
    requires m in groups
    ensures Group(groups - {m}, e.metric)[e] == if e.metric == m then 0 else Group(groups, e.metric)[e]
  {
  }

  lemma NoGroups(bag: Bag)
    requires Holds(map[], bag)
    ensures bag == multiset{}
  {
    assert forall e: CardEvent :: bag[e] == Group(map[], e.metric)[e];
  }

  lemma CountedOff(rest: Bag, e: CardEvent)
    requires e in rest
    ensures rest == rest[e := 0] + Copies(e, rest[e]) && |rest[e := 0]| < |rest|
  {
  }

  // The first loop of flush: one group for each column, and every pending event
  // in its own.
  method GroupByColumn(pending: Bag) returns (groups: Groups)
    ensures Holds(groups, pending)
  {
    hide Holds, Copies;
    groups := map[];
    var rest := pending;
    ghost var grouped: Bag := multiset{};
    assert Holds(groups, grouped) by { EmptyGroups(); }
    while rest != multiset{}
      invariant Holds(groups, grouped) && grouped + rest == pending
      decreases |rest|
    {
      var e :| e in rest;
      CountedOff(rest, e);
      GroupGrows(groups, grouped, e, rest[e]);
      Regrouped(grouped, rest[e := 0], Copies(e, rest[e]));
      groups := groups[e.metric := Group(groups, e.metric) + Copies(e, rest[e])];
      grouped := grouped + Copies(e, rest[e]);
      rest := rest[e := 0];
    }
    assert grouped == pending;
  }

  lemma EmptyGroups()
    ensures Holds(map[], multiset{})
  {
  }

  lemma Regrouped(a: Bag, b: Bag, c: Bag)
    ensures (a + c) + b == a + (b + c)
  {
  }

  // All of these events had this said of their statement.
  ghost predicate Outcome(bag: Bag, reaches: map<Metric, bool>, ok: bool)
    requires forall m: Metric :: m in reaches
  {
    forall e :: e in bag ==> reaches[e.metric] == ok
  }

  // One statement for each group: it goes through or is lost as a whole, and
  // nothing is tried twice. `reaches` says which the database carries out.
  method WriteGroups(batch: Bag, reaches: map<Metric, bool>) returns (through: Bag, gone: Bag, flushed: nat, failed: nat)
    requires forall m: Metric :: m in reaches
    ensures through + gone == batch && flushed == |through| && failed == |gone|
    ensures Outcome(through, reaches, true) && Outcome(gone, reaches, false)
  {
    hide Holds;
    var groups := GroupByColumn(batch);
    through, gone, flushed, failed := multiset{}, multiset{}, 0, 0;
    ghost var rest := batch;
    while groups != map[]
      invariant Holds(groups, rest) && through + gone + rest == batch
      invariant flushed == |through| && failed == |gone|
      invariant Outcome(through, reaches, true) && Outcome(gone, reaches, false)
      decreases |groups|
    {
      var m :| m in groups;
      var counts := groups[m];
      OwnMetric(groups, rest, m);
      GroupTaken(groups, rest, m);
      Moved(through, gone, rest - counts, counts);
      rest := rest - counts;
      groups := groups - {m};
      if reaches[m] {
        Joined(through, counts);
        flushed, through := flushed + |counts|, through + counts;
      } else {
        Joined(gone, counts);
        failed, gone := failed + |counts|, gone + counts;
      }
    }
    NoGroups(rest);
    NothingMore(through + gone);
  }

  lemma OwnMetric(groups: Groups, bag: Bag, m: Metric)
    requires Holds(groups, bag) && m in groups
    ensures forall e :: e in groups[m] ==> e.metric == m
  {
  }

  lemma Moved(a: Bag, b: Bag, rest: Bag, x: Bag)
    ensures (a + x) + b + rest == a + b + (rest + x) && a + (b + x) + rest == a + b + (rest + x)
  {
  }

  lemma Joined(a: Bag, b: Bag)
    ensures |a + b| == |a| + |b|
    ensures forall e :: e in a + b ==> e in a || e in b
  {
  }

  lemma SizesAdd(a: Bag, b: Bag)
    ensures |a + b| == |a| + |b|
  {
  }

  lemma NothingMore(a: Bag)
    ensures a + multiset{} == a
  {
  }

  // --- runs ---

  // The goroutine that writes batches: running, past its last drain, or returned.
  // Recording goes on in every stage.
  datatype Stage = Running | Drained | Stopped

  datatype Recorder = Recorder(
    capacity: nat, events: seq<CardEvent>, pending: Bag, stage: Stage, flushed: nat, dropped: nat, failed: nat)

  datatype Happening =
    | Recorded(event: CardEvent)
    // What is buffered joins the batch.
    | Batched
    // The batch goes out, part of it in statements that fail.
    | Flushed(through: Bag, gone: Bag)
    // The context is cancelled: the last drain, and then the last flush.
    | Cancelled
    | Finished(through: Bag, gone: Bag)

  ghost predicate CanHappen(r: Recorder, h: Happening) {
    match h
    case Recorded(_) => true
    case Flushed(through, gone) => r.stage == Running && r.pending == through + gone
    case Finished(through, gone) => r.stage == Drained && r.pending == through + gone
    case _ => r.stage == Running
  }

  function Step(r: Recorder, h: Happening): Recorder {
    match h
    case Recorded(e) =>
      if e.uuid == "" then r
      else if |r.events| < r.capacity then r.(events := r.events + [e])
      else r.(dropped := r.dropped + 1)
    case Batched => r.(events := [], pending := r.pending + multiset(r.events))
    case Cancelled => r.(events := [], pending := r.pending + multiset(r.events), stage := Drained)
    case Flushed(through, gone) =>
      r.(pending := multiset{}, flushed := r.flushed + |through|, failed := r.failed + |gone|)
    case Finished(through, gone) =>
      r.(pending := multiset{}, flushed := r.flushed + |through|, failed := r.failed + |gone|, stage := Stopped)
  }

  ghost predicate Run(r: Recorder, hs: seq<Happening>)
    decreases |hs|
  {
    hs == [] || (CanHappen(r, hs[0]) && Run(Step(r, hs[0]), hs[1..]))
  }

  function End(r: Recorder, hs: seq<Happening>): Recorder
    decreases |hs|
  {
    if hs == [] then r else End(Step(r, hs[0]), hs[1..])
  }

  // The events recorded on the way; those without a row are ignored.
  function Offered(hs: seq<Happening>): nat {
    if hs == [] then 0
    else (if hs[0].Recorded? && hs[0].event.uuid != "" then 1 else 0) + Offered(hs[1..])
  }

  function Counted(r: Recorder): nat {
    r.flushed + r.failed + r.dropped
  }

  lemma BatchSize(pending: Bag, events: seq<CardEvent>)
    ensures |pending + multiset(events)| == |pending| + |events|
  {
    SizesAdd(pending, multiset(events));
  }

  // Along every run each event recorded is counted, buffered or pending.
  lemma {:induction false} RunAccount(r: Recorder, hs: seq<Happening>)
    requires Run(r, hs)
    ensures var z := End(r, hs);
            Counted(z) + |z.events| + |z.pending| == Counted(r) + |r.events| + |r.pending| + Offered(hs) && z.capacity == r.capacity
    decreases |hs|
  {
    if hs != [] {
      match hs[0] {
        case Flushed(through, gone) => SizesAdd(through, gone);
        case Finished(through, gone) => SizesAdd(through, gone);
        case _ => BatchSize(r.pending, r.events);
      }
      RunAccount(Step(r, hs[0]), hs[1..]);
    }
  }

  function Least(a: nat, b: nat): nat {
    if a <= b then a else b
  }

  // After the last drain nobody takes events out of the buffer any more.
  lemma {:induction false} BufferFills(r: Recorder, hs: seq<Happening>)
    requires Run(r, hs) && r.stage != Running && |r.events| <= r.capacity
    ensures var z := End(r, hs);
            |z.events| == Least(r.capacity, |r.events| + Offered(hs)) && z.stage != Running
            && (z.stage == Stopped && (r.stage == Stopped ==> r.pending == multiset{}) ==> z.pending == multiset{})
    decreases |hs|
  {
    if hs != [] {
      BufferFills(Step(r, hs[0]), hs[1..]);
    }
  }

  // At the end of any run that has shut the recorder down, the events recorded since
  // its last drain are in no counter, as many as the buffer holds; all others are,
  // once each. So the counters add up to the number recorded exactly when nothing
  // has been recorded since.
  lemma CountedAtShutdown(r: Recorder, before: seq<Happening>, after: seq<Happening>)
    requires Run(r, before) && CanHappen(End(r, before), Cancelled) && Run(Step(End(r, before), Cancelled), after)
    requires r == Recorder(r.capacity, [], multiset{}, Running, 0, 0, 0) && 0 < r.capacity
    requires End(Step(End(r, before), Cancelled), after).stage == Stopped
    ensures var z := End(Step(End(r, before), Cancelled), after);
            Counted(z) + Least(r.capacity, Offered(after)) == Offered(before) + Offered(after)
            && |z.events| == Least(r.capacity, Offered(after)) && z.pending == multiset{}
            && (Counted(z) == Offered(before) + Offered(after) <==> Offered(after) == 0)
  {
    hide CanHappen, Step;
    RunAccount(r, before);
    var m := End(r, before);
    LastDrain(m);
    var d := Step(m, Cancelled);
    RunAccount(d, after);
    BufferFills(d, after);
  }

  lemma LastDrain(r: Recorder)
    ensures var d := Step(r, Cancelled);
            Counted(d) == Counted(r) && d.events == [] && |d.pending| == |r.pending| + |r.events| && d.stage == Drained && d.capacity == r.capacity
  {
    BatchSize(r.pending, r.events);
  }

  // The shutdown signal stops the recorder before the rooms: a card played in the
  // time rooms are given to drain is buffered, and never counted.
  lemma LatePlayIsNotCounted(capacity: nat, e: CardEvent)
    requires 0 < capacity && e.uuid != ""
    ensures var r := Recorder(capacity, [], multiset{}, Running, 0, 0, 0);
            var hs := [Cancelled, Finished(multiset{}, multiset{}), Recorded(e)];
            Run(r, hs) && End(r, hs).stage == Stopped && Offered(hs) == 1 && Counted(End(r, hs)) == 0 && End(r, hs).events == [e]
  {
    var r := Recorder(capacity, [], multiset{}, Running, 0, 0, 0);
    var h0, h1, h2 := Cancelled, Finished(multiset{}, multiset{}), Recorded(e);
    var a := Step(r, h0);
    var b := Step(a, h1);
    var c := Step(b, h2);
    assert [h0, h1, h2][1..] == [h1, h2] && [h1, h2][1..] == [h2] && [h2][1..] == [];
    assert a.pending == multiset{} && c.events == [e];
    assert Run(c, []) && End(c, []) == c && Offered([]) == 0;
    assert Run(b, [h2]) && End(b, [h2]) == c && Offered([h2]) == 1;
    assert Run(a, [h1, h2]) && End(a, [h1, h2]) == c && Offered([h1, h2]) == 1;
  }

  lemma Flushing(r: Recorder, through: Bag, gone: Bag)
    ensures Step(r, Flushed(through, gone))
         == r.(pending := multiset{}, flushed := r.flushed + |through|, failed := r.failed + |gone|)
  {
  }

  lemma Stopping(r: Recorder, drained: Recorder, through: Bag, gone: Bag)
    requires r.stage == Running && drained == Step(r, Batched).(stage := Drained) && drained.pending == through + gone
    ensures CanHappen(r, Cancelled) && drained == Step(r, Cancelled) && CanHappen(drained, Finished(through, gone))
    ensures Step(drained, Finished(through, gone)) == Step(drained, Flushed(through, gone)).(stage := Stopped)
  {
  }

  lemma AllCounted(recorded: Bag, written: Bag, lost: Bag, refused: Bag)
    requires Balanced(recorded, written, lost, refused, multiset([]), multiset{})
    ensures recorded == written + lost + refused && |recorded| == |written| + |lost| + |refused|
  {
  }

  lemma NothingGone(lost: Bag, gone: Bag, reaches: map<Metric, bool>)
    requires forall m: Metric :: m in reaches && reaches[m]
    requires Outcome(gone, reaches, false)
    ensures lost + gone == lost
  {
    assert gone == multiset{};
  }

  // --- the recorder ---

  class CardRecorder {
    const capacity: nat
    var events: seq<CardEvent>
    var pending: Bag
    var stage: Stage
    var flushed: nat
    var dropped: nat
    var failed: nat
    ghost var recorded: Bag
    ghost var written: Bag
    ghost var lost: Bag
    ghost var refused: Bag

    ghost function State(): Recorder
      reads this
    {
      Recorder(capacity, events, pending, stage, flushed, dropped, failed)
    }

    // No event is lost from sight, and the counters count exactly theirs.
    ghost predicate Valid()
      reads this
    {
      |events| <= capacity
      && Balanced(recorded, written, lost, refused, multiset(events), pending)
      && flushed == |written| && failed == |lost| && dropped == |refused|
    }

    constructor (buffer: int)
      ensures Valid() && recorded == multiset{} && capacity == if buffer <= 0 then 4096 else buffer
      ensures State() == Recorder(capacity, [], multiset{}, Running, 0, 0, 0)
    {
      capacity := if buffer <= 0 then 4096 else buffer;
      events, pending, flushed, dropped, failed, stage := [], multiset{}, 0, 0, 0, Running;
      recorded, written, lost, refused := multiset{}, multiset{}, multiset{}, multiset{};
    }

    // Never blocks: with the buffer full the event is dropped and counted. Seed
    // cards have no row, so an empty uuid is ignored. It makes no difference whether
    // anybody still reads the buffer.
    method Record(e: CardEvent)
      requires Valid()
      modifies this`events, this`dropped, this`recorded, this`refused
      ensures Valid() && State() == Step(old(State()), Recorded(e))
      ensures e.uuid == "" ==> recorded == old(recorded) && refused == old(refused) && events == old(events)
      ensures e.uuid != "" ==> recorded == old(recorded) + multiset{e}
      ensures e.uuid != "" && |old(events)| < capacity ==> events == old(events) + [e] && refused == old(refused)
      ensures e.uuid != "" && |old(events)| == capacity ==> events == old(events) && refused == old(refused) + multiset{e}
    {
      hide Balanced;
      if e.uuid == "" {
        return;
      }
      if |events| < capacity {
        Accepted(recorded, written, lost, refused, events, pending, e);
        events := events + [e];
      } else {
        TurnedAway(recorded, written, lost, refused, multiset(events), pending, e);
        dropped := dropped + 1;
        refused := refused + multiset{e};
      }
      recorded := recorded + multiset{e};
    }

    method Drain()
      requires Valid()
      modifies this`events, this`pending
      ensures Valid() && events == [] && pending == old(pending) + multiset(old(events))
      ensures State() == Step(old(State()), Batched)
    {
      hide Balanced;
      ghost var p, all := pending, multiset(events);
      while events != []
        invariant |events| <= capacity && Balanced(recorded, written, lost, refused, multiset(events), pending)
        invariant pending + multiset(events) == p + all
        decreases |events|
      {
        TakenOut(recorded, written, lost, refused, events, pending);
        Regrouped(pending, multiset(events[1..]), multiset{events[0]});
        pending := pending + multiset{events[0]};
        events := events[1..];
      }
      assert pending + multiset{} == pending;
    }

    // The whole batch is written or lost, metric by metric, and none of it stays.
    method Flush(reaches: map<Metric, bool>) returns (ghost through: Bag, ghost gone: Bag)
      requires Valid() && forall m: Metric :: m in reaches
      modifies this`pending, this`flushed, this`failed, this`written, this`lost
      ensures Valid() && pending == multiset{}
      ensures through + gone == old(pending) && written == old(written) + through && lost == old(lost) + gone
      ensures Outcome(through, reaches, true) && Outcome(gone, reaches, false)
      ensures State() == Step(old(State()), Flushed(through, gone))
    {
      hide Balanced, Outcome, Step;
      ghost var before := State();
      var a, b, ok, bad := WriteGroups(pending, reaches);
      through, gone := a, b;
      Settled(recorded, written, lost, refused, multiset(events), pending, through, gone);
      SizesAdd(written, through);
      SizesAdd(lost, gone);
      pending := multiset{};
      flushed := flushed + ok;
      failed := failed + bad;
      written := written + through;
      lost := lost + gone;
      Flushing(before, through, gone);
    }

    // At shutdown what is buffered is still written, and the goroutine returns. If
    // nothing is recorded while it does, every event recorded so far has then been
    // counted; what is recorded later is not, see CountedAtShutdown.
    method Stop(reaches: map<Metric, bool>) returns (ghost through: Bag, ghost gone: Bag)
      requires Valid() && stage == Running && forall m: Metric :: m in reaches
      modifies this`events, this`pending, this`flushed, this`failed, this`written, this`lost, this`stage
      ensures Valid() && recorded == written + lost + refused
      ensures |recorded| == flushed + failed + dropped
      ensures (forall m: Metric :: reaches[m]) ==> lost == old(lost)
      ensures CanHappen(old(State()), Cancelled) && CanHappen(Step(old(State()), Cancelled), Finished(through, gone))
      ensures State() == Step(Step(old(State()), Cancelled), Finished(through, gone))
    {
      hide Balanced, Step, Outcome;
      ghost var before, lostBefore := State(), lost;
      Drain();
      stage := Drained;
      ghost var drained := State();
      through, gone := Flush(reaches);
      stage := Stopped;
      Stopping(before, drained, through, gone);
      AllCounted(recorded, written, lost, refused);
      if forall m: Metric :: reaches[m] {
        NothingGone(lostBefore, gone, reaches);
      }
    }
  }
}
