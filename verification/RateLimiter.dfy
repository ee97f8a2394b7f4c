// The fixed-window rate limiter and its pruning
// (backend/internal/httpapi/ratelimit.go).
module RateLimiter {

  // Times are instants; 0 is the zero time.
  datatype Bucket = Bucket(windowStart: int, count: nat, lastSeen: int)

  type Buckets = map<string, Bucket>

  const NO_BUCKET := Bucket(0, 0, 0)
  const MINUTE := 60_000_000_000
  const PRUNE_EVERY := 256

  datatype Call = Call(key: string, limit: int, window: int, now: int)

  function Window(window: int): int {
    if window <= 0 then MINUTE else window
  }

  // The bucket after the call.
  function Counted(b: Bucket, window: int, now: int): Bucket {
    if b.windowStart == 0 || now - b.windowStart >= window then Bucket(now, 1, now)
    else Bucket(b.windowStart, b.count + 1, now)
  }

  function BucketOf(buckets: Buckets, key: string): Bucket {
    if key in buckets then buckets[key] else NO_BUCKET
  }

  predicate Idle(b: Bucket, now: int, maxIdle: int) {
    b.lastSeen == 0 || now - b.lastSeen > maxIdle
  }

  function Pruned(buckets: Buckets, now: int, maxIdle: int): Buckets {
    map key | key in buckets && !Idle(buckets[key], now, maxIdle) :: buckets[key]
  }

  function Counting(buckets: Buckets, c: Call): Buckets {
    if c.limit <= 0 then buckets
    else buckets[c.key := Counted(BucketOf(buckets, c.key), Window(c.window), c.now)]
  }

  function Allowed(buckets: Buckets, c: Call): bool {
    c.limit <= 0 || Counted(BucketOf(buckets, c.key), Window(c.window), c.now).count <= c.limit
  }

  datatype Limiter = Limiter(buckets: Buckets, attempts: nat)

  function After(l: Limiter, c: Call): Limiter {
    if c.limit <= 0 then l
    else
      var n := l.attempts + 1;
      var buckets := Counting(l.buckets, c);
      Limiter(if n % PRUNE_EVERY == 0 then Pruned(buckets, c.now, 3 * Window(c.window)) else buckets, n)
  }

  // --- the limiter object ---

  class RateLimiterState {
    var buckets: Buckets
    var attempts: nat

    constructor ()
      ensures State() == Limiter(map[], 0)
    {
      buckets, attempts := map[], 0;
    }

    ghost function State(): Limiter
      reads this
    {
      Limiter(buckets, attempts)
    }

    method Allow(key: string, limit: int, window: int, now: int) returns (ok: bool)
      modifies this
      ensures State() == After(old(State()), Call(key, limit, window, now))
      ensures ok == Allowed(old(buckets), Call(key, limit, window, now))
    {
      if limit <= 0 {
        return true;
      }
      var w := window;
      if w <= 0 {
        w := MINUTE;
      }
      var b := if key in buckets then buckets[key] else NO_BUCKET;
      if b.windowStart == 0 || now - b.windowStart >= w {
        b := b.(windowStart := now, count := 0);
      }
      b := b.(count := b.count + 1, lastSeen := now);
      buckets := buckets[key := b];
      attempts := attempts + 1;
      if attempts % PRUNE_EVERY == 0 {
        Prune(now, 3 * w);
      }
      return b.count <= limit;
    }

    method Prune(now: int, maxIdle: int)
      modifies this`buckets
      ensures buckets == Pruned(old(buckets), now, maxIdle)
    {
      var left := buckets.Keys;
      while left != {}
        invariant left <= old(buckets).Keys
        invariant buckets == map key | key in old(buckets) && (key in left || !Idle(old(buckets)[key], now, maxIdle)) :: old(buckets)[key]
        decreases |left|
      {
        var key :| key in left;
        var b := buckets[key];
        if b.lastSeen == 0 || now - b.lastSeen > maxIdle {
          buckets := buckets - {key};
        }
        left := left - {key};
      }
    }
  }

  // --- pruning cannot be noticed ---

  ghost predicate InOrder(start: int, calls: seq<Call>) {
    0 < start
    && (forall i :: 0 <= i < |calls| ==> start <= calls[i].now)
    && forall i, j :: 0 <= i < j < |calls| ==> calls[i].now <= calls[j].now
  }

  // No call's window is more than three times another's. Idle for longer than three
  // short windows is idle for at least one unit of time more.
  ghost predicate ComparableWindows(calls: seq<Call>, longest: int) {
    0 < longest && forall i :: 0 <= i < |calls| ==> Window(calls[i].window) <= longest <= 3 * Window(calls[i].window) + 1
  }

  // What was pruned has been idle for a whole window and would start over anyway.
  ghost predicate Alike(pruned: Buckets, full: Buckets, now: int, longest: int) {
    (forall key :: key in pruned ==> key in full && full[key] == pruned[key])
    && (forall key :: key in full ==>
          0 < full[key].windowStart <= full[key].lastSeen <= now
          && (key !in pruned ==> now - full[key].windowStart >= longest))
  }

  function Decisions(l: Limiter, calls: seq<Call>): seq<bool>
    decreases |calls|
  {
    if calls == [] then [] else [Allowed(l.buckets, calls[0])] + Decisions(After(l, calls[0]), calls[1..])
  }

  // The limiter that never forgets.
  function DecisionsUnpruned(buckets: Buckets, calls: seq<Call>): seq<bool>
    decreases |calls|
  {
    if calls == [] then [] else [Allowed(buckets, calls[0])] + DecisionsUnpruned(Counting(buckets, calls[0]), calls[1..])
  }

  lemma AlikeCounts(pruned: Buckets, full: Buckets, now: int, longest: int, c: Call)
    requires Alike(pruned, full, now, longest) && 0 < now <= c.now && Window(c.window) <= longest
    ensures Allowed(pruned, c) == Allowed(full, c)
    ensures Alike(Counting(pruned, c), Counting(full, c), c.now, longest)
  {
  }

  lemma AlikePrunes(pruned: Buckets, full: Buckets, now: int, longest: int, maxIdle: int)
    requires Alike(pruned, full, now, longest) && longest <= maxIdle + 1
    ensures Alike(Pruned(pruned, now, maxIdle), full, now, longest)
  {
  }

  lemma {:induction false} AlikeDecides(l: Limiter, full: Buckets, calls: seq<Call>, now: int, longest: int)
    requires Alike(l.buckets, full, now, longest) && InOrder(now, calls) && ComparableWindows(calls, longest)
    ensures Decisions(l, calls) == DecisionsUnpruned(full, calls)
    decreases |calls|
  {
    hide Alike, Allowed, Counting, Pruned;
    if calls != [] {
      var c := calls[0];
      AlikeCounts(l.buckets, full, now, longest, c);
      AlikePrunes(Counting(l.buckets, c), Counting(full, c), c.now, longest, 3 * Window(c.window));
      LaterAlike(l.buckets, full, now, c.now, longest, c);
      assert forall i :: 0 <= i < |calls[1..]| ==> calls[1..][i] == calls[i + 1];
      AlikeDecides(After(l, c), Counting(full, c), calls[1..], c.now, longest);
    }
  }

  lemma LaterAlike(pruned: Buckets, full: Buckets, now: int, later: int, longest: int, c: Call)
    requires Alike(pruned, full, now, longest) && now <= later
    ensures c.limit <= 0 ==> Counting(full, c) == full && Alike(pruned, full, later, longest)
  {
  }

  // With a clock that does not run backwards, forgetting idle keys changes no
  // decision, as long as no window is more than three times another.
  lemma PruningIsInvisible(calls: seq<Call>, start: int, longest: int)
    requires InOrder(start, calls) && ComparableWindows(calls, longest)
    ensures Decisions(Limiter(map[], 0), calls) == DecisionsUnpruned(map[], calls)
  {
    AlikeDecides(Limiter(map[], 0), map[], calls, start, longest);
  }

  // With a much shorter window about, it does: when another key's call prunes, a key
  // that has used up its limit is let through again exactly if it has been idle for
  // more than three of that call's windows.
  lemma ShortWindowForgets(l: Limiter, key: string, limit: int, window: int, other: Call, now: int)
    requires 0 < limit && 0 < window && key in l.buckets && other.key != key && other.limit > 0
    requires var b := l.buckets[key];
             b.count >= limit && 0 < b.windowStart <= b.lastSeen <= other.now <= now && now - b.windowStart < window
    requires (l.attempts + 1) % PRUNE_EVERY == 0
    ensures !Allowed(Counting(l.buckets, other), Call(key, limit, window, now))
    ensures Allowed(After(l, other).buckets, Call(key, limit, window, now))
       <==> other.now - l.buckets[key].lastSeen > 3 * Window(other.window)
  {
  }

  ghost predicate UsesWindows(calls: seq<Call>, shortest: int, longest: int) {
    forall i :: 0 <= i < |calls| ==> shortest <= Window(calls[i].window) <= longest
  }

  // Calls of another key at one instant.
  function Filler(k: nat, key: string, window: int, at: int): (cs: seq<Call>)
    ensures |cs| == k && forall i :: 0 <= i < k ==> cs[i] == Call(key, 1, window, at)
  {
    if k == 0 then [] else [Call(key, 1, window, at)] + Filler(k - 1, key, window, at)
  }

  // One call each that uses up the limit; a fresh limiter's first prune, by a call
  // with a short window; and the first key again.
  function Forgetful(key: string, other: string, w: int, v: int, start: int): seq<Call> {
    var late := start + 3 * v + 1;
    [Call(key, 1, w, start)] + (Filler(254, other, v, start) + [Call(other, 1, v, late), Call(key, 1, w, late)])
  }

  lemma {:induction false} FillThenDiffer(l: Limiter, full: Buckets, k: nat, key: string, other: string, w: int, v: int, start: int)
    requires 0 < start && 0 < v && 3 * v + 1 < w && key != other && l.attempts + k == PRUNE_EVERY - 1
    requires key in l.buckets && key in full && l.buckets[key] == full[key] == Bucket(start, 1, start)
    ensures var late := start + 3 * v + 1;
            var calls := Filler(k, other, v, start) + [Call(other, 1, v, late), Call(key, 1, w, late)];
            Decisions(l, calls) != DecisionsUnpruned(full, calls)
    decreases k
  {
    hide Allowed, Counting, Pruned;
    var late := start + 3 * v + 1;
    var prune, again := Call(other, 1, v, late), Call(key, 1, w, late);
    var tail := [prune, again];
    OthersKeep(l.buckets, key, Call(other, 1, v, start));
    OthersKeep(full, key, Call(other, 1, v, start));
    if k == 0 {
      assert Filler(k, other, v, start) + tail == tail;
      TwoDecisions(l, full, prune, again);
      ForgetsOne(l, full, key, prune, again);
    } else {
      var c, calls := Call(other, 1, v, start), Filler(k, other, v, start) + tail;
      assert calls[1..] == Filler(k - 1, other, v, start) + tail;
      FillThenDiffer(After(l, c), Counting(full, c), k - 1, key, other, w, v, start);
      assert Decisions(l, calls)[1..] != DecisionsUnpruned(full, calls)[1..];
    }
  }

  lemma TwoDecisions(l: Limiter, full: Buckets, a: Call, b: Call)
    ensures Decisions(l, [a, b]) == [Allowed(l.buckets, a), Allowed(After(l, a).buckets, b)]
    ensures DecisionsUnpruned(full, [a, b]) == [Allowed(full, a), Allowed(Counting(full, a), b)]
  {
    hide Allowed, After, Counting;
    assert [a, b][1..] == [b] && [b][1..] == [];
    assert Decisions(After(l, a), [b]) == [Allowed(After(l, a).buckets, b)] + Decisions(After(After(l, a), b), []);
    assert DecisionsUnpruned(Counting(full, a), [b]) == [Allowed(Counting(full, a), b)] + DecisionsUnpruned(Counting(Counting(full, a), b), []);
  }

  lemma OthersKeep(buckets: Buckets, key: string, c: Call)
    requires c.key != key && key in buckets
    ensures key in Counting(buckets, c) && Counting(buckets, c)[key] == buckets[key]
  {
  }

  lemma ForgetsOne(l: Limiter, full: Buckets, key: string, prune: Call, again: Call)
    requires prune.key != key && again.key == key && prune.limit == again.limit == 1 && 0 < prune.window
    requires again.now == prune.now && l.attempts + 1 == PRUNE_EVERY && key in l.buckets && key in full
    requires l.buckets[key] == full[key] && full[key].count == 1 && 0 < full[key].windowStart == full[key].lastSeen
    requires 3 * prune.window < again.now - full[key].windowStart < again.window
    ensures Allowed(After(l, prune).buckets, again) && !Allowed(Counting(full, prune), again)
  {
  }

  lemma ForgetfulDiffers(key: string, other: string, w: int, v: int, start: int)
    requires 0 < start && 0 < v && 3 * v + 1 < w && key != other
    ensures var calls := Forgetful(key, other, w, v, start);
            |calls| == 257 && InOrder(start, calls) && UsesWindows(calls, v, w)
            && Decisions(Limiter(map[], 0), calls) != DecisionsUnpruned(map[], calls)
  {
    hide Decisions, DecisionsUnpruned;
    var c, calls := Call(key, 1, w, start), Forgetful(key, other, w, v, start);
    var late := start + 3 * v + 1;
    var rest := Filler(254, other, v, start) + [Call(other, 1, v, late), Call(key, 1, w, late)];
    assert calls[0] == c && calls[1..] == rest;
    var l, full := After(Limiter(map[], 0), c), Counting(map[], c);
    FillThenDiffer(l, full, 254, key, other, w, v, start);
    DecideFirst(Limiter(map[], 0), map[], calls);
  }

  lemma DecideFirst(l: Limiter, full: Buckets, calls: seq<Call>)
    requires calls != [] && Decisions(After(l, calls[0]), calls[1..]) != DecisionsUnpruned(Counting(full, calls[0]), calls[1..])
    ensures Decisions(l, calls) != DecisionsUnpruned(full, calls)
  {
    assert Decisions(l, calls)[1..] != DecisionsUnpruned(full, calls)[1..];
  }

  // With windows from v to w, pruning changes no decision on any run exactly when
  // the longest is no more than three times the shortest, but for one unit of time.
  lemma PruningShowsExactly(v: int, w: int)
    requires 0 < v <= w
    ensures w <= 3 * v + 1
       <==> forall calls, start :: InOrder(start, calls) && UsesWindows(calls, v, w) ==>
              Decisions(Limiter(map[], 0), calls) == DecisionsUnpruned(map[], calls)
  {
    hide Decisions, DecisionsUnpruned, Forgetful, InOrder, UsesWindows, ComparableWindows;
    if w <= 3 * v + 1 {
      forall calls, start | InOrder(start, calls) && UsesWindows(calls, v, w)
        ensures Decisions(Limiter(map[], 0), calls) == DecisionsUnpruned(map[], calls)
      {
        Comparable(calls, v, w);
        PruningIsInvisible(calls, start, w);
      }
    } else {
      ForgetfulDiffers("a", "b", w, v, 1);
      assert InOrder(1, Forgetful("a", "b", w, v, 1));
    }
  }

  lemma Comparable(calls: seq<Call>, v: int, w: int)
    requires UsesWindows(calls, v, w) && 0 < v <= w <= 3 * v + 1
    ensures ComparableWindows(calls, w)
  {
  }

  // --- how much gets through ---

  // A limit that is not positive is none: the call goes through and leaves no trace.
  lemma NoLimitNoTrace(l: Limiter, c: Call)
    requires c.limit <= 0
    ensures Allowed(l.buckets, c) && After(l, c) == l
  {
  }

  // The calls for a key let through between t and t + w, both included.
  function Through(l: Limiter, calls: seq<Call>, key: string, t: int, w: int): nat
    decreases |calls|
  {
    if calls == [] then 0
    else
      (if calls[0].key == key && Allowed(l.buckets, calls[0]) && t <= calls[0].now <= t + w then 1 else 0)
      + Through(After(l, calls[0]), calls[1..], key, t, w)
  }

  function ThroughUnpruned(b: Bucket, calls: seq<Call>, key: string, t: int, w: int): nat
    decreases |calls|
  {
    if calls == [] then 0
    else if calls[0].key != key then ThroughUnpruned(b, calls[1..], key, t, w)
    else
      var next := Counted(b, Window(calls[0].window), calls[0].now);
      (if next.count <= calls[0].limit && t <= calls[0].now <= t + w then 1 else 0)
      + ThroughUnpruned(next, calls[1..], key, t, w)
  }

  // The key's calls have one window, and limits up to this one; a call without a
  // limit is let through in any case.
  ghost predicate OneRule(calls: seq<Call>, key: string, limit: int, w: int) {
    0 < limit && 0 < w
    && forall i :: 0 <= i < |calls| && calls[i].key == key ==> 0 < calls[i].limit <= limit && calls[i].window == w
  }

  // What the key may still get through between t and t + w: nothing beyond the
  // current window once that began after t, one more window if it covers t, two
  // otherwise.
  function Room(b: Bucket, limit: int, t: int, w: int): int {
    var here := if b.count >= limit then 0 else limit - b.count;
    if b.windowStart == 0 || b.windowStart + w <= t then 2 * limit
    else if b.windowStart <= t then here + limit
    else here
  }

  lemma {:induction false} NothingAfterwards(b: Bucket, calls: seq<Call>, key: string, t: int, w: int)
    requires forall i :: 0 <= i < |calls| ==> calls[i].now > t + w
    ensures ThroughUnpruned(b, calls, key, t, w) == 0
    decreases |calls|
  {
    if calls != [] {
      NothingAfterwards(b, calls[1..], key, t, w);
      NothingAfterwards(Counted(b, Window(calls[0].window), calls[0].now), calls[1..], key, t, w);
    }
  }

  lemma {:induction false} RoomBounds(b: Bucket, calls: seq<Call>, key: string, limit: int, t: int, w: int, start: int)
    requires OneRule(calls, key, limit, w) && InOrder(start, calls) && b.windowStart <= start
    ensures ThroughUnpruned(b, calls, key, t, w) <= Room(b, limit, t, w)
    decreases |calls|
  {
    if calls != [] {
      var c, rest := calls[0], calls[1..];
      assert forall i :: 0 <= i < |rest| ==> rest[i] == calls[i + 1];
      if c.key != key {
        RoomBounds(b, rest, key, limit, t, w, start);
      } else if c.now > t + w {
        NothingAfterwards(b, calls, key, t, w);
      } else {
        RoomBounds(Counted(b, w, c.now), rest, key, limit, t, w, c.now);
      }
    }
  }

  lemma {:induction false} OnlyOwnBucket(buckets: Buckets, l: Limiter, calls: seq<Call>, key: string,
                                         limit: int, t: int, w: int, now: int, longest: int)
    requires Alike(l.buckets, buckets, now, longest) && InOrder(now, calls) && ComparableWindows(calls, longest)
    requires OneRule(calls, key, limit, w)
    ensures Through(l, calls, key, t, w) == ThroughUnpruned(BucketOf(buckets, key), calls, key, t, w)
    decreases |calls|
  {
    hide Alike, Pruned;
    if calls != [] {
      var c, rest := calls[0], calls[1..];
      assert forall i :: 0 <= i < |rest| ==> rest[i] == calls[i + 1];
      AlikeCounts(l.buckets, buckets, now, longest, c);
      AlikePrunes(Counting(l.buckets, c), Counting(buckets, c), c.now, longest, 3 * Window(c.window));
      LaterAlike(l.buckets, buckets, now, c.now, longest, c);
      OnlyOwnBucket(Counting(buckets, c), After(l, c), rest, key, limit, t, w, c.now, longest);
    }
  }

  // Whatever everyone does, a key gets at most twice its limit through in any
  // interval as long as its window.
  lemma AtMostTwiceTheLimit(calls: seq<Call>, key: string, limit: int, t: int, w: int, start: int, longest: int)
    requires InOrder(start, calls) && ComparableWindows(calls, longest) && OneRule(calls, key, limit, w)
    ensures Through(Limiter(map[], 0), calls, key, t, w) <= 2 * limit
  {
    OnlyOwnBucket(map[], Limiter(map[], 0), calls, key, limit, t, w, start, longest);
    RoomBounds(NO_BUCKET, calls, key, limit, t, w, start);
  }

  // A burst of calls of one key at one instant.
  function Burst(k: nat, key: string, limit: int, w: int, at: int): (cs: seq<Call>)
    ensures |cs| == k && forall i :: 0 <= i < k ==> cs[i] == Call(key, limit, w, at)
  {
    if k == 0 then [] else [Call(key, limit, w, at)] + Burst(k - 1, key, limit, w, at)
  }

  lemma {:induction false} BurstThrough(b: Bucket, k: nat, key: string, limit: int, w: int, at: int, rest: seq<Call>, t: int)
    requires 0 < w && t <= at <= t + w && 0 < b.windowStart == at && b.lastSeen == at && b.count + k <= limit
    ensures ThroughUnpruned(b, Burst(k, key, limit, w, at) + rest, key, t, w)
         == k + ThroughUnpruned(b.(count := b.count + k), rest, key, t, w)
    decreases k
  {
    var calls := Burst(k, key, limit, w, at) + rest;
    if k == 0 {
      assert calls == rest;
    } else {
      assert calls[0] == Call(key, limit, w, at) && calls[1..] == Burst(k - 1, key, limit, w, at) + rest;
      BurstThrough(Counted(b, w, at), k - 1, key, limit, w, at, rest, t);
    }
  }

  // A burst that starts a window gets its whole limit through.
  lemma WindowThrough(b: Bucket, key: string, limit: nat, w: int, at: int, rest: seq<Call>, t: int)
    requires 0 < w && 0 < limit && 0 < at && t <= at <= t + w && (b.windowStart == 0 || at - b.windowStart >= w)
    ensures ThroughUnpruned(b, Burst(limit, key, limit, w, at) + rest, key, t, w)
         == limit + ThroughUnpruned(Bucket(at, limit, at), rest, key, t, w)
  {
    var calls := Burst(limit, key, limit, w, at) + rest;
    assert calls[0] == Call(key, limit, w, at) && calls[1..] == Burst(limit - 1, key, limit, w, at) + rest;
    BurstThrough(Bucket(at, 1, at), limit - 1, key, limit, w, at, rest, t);
  }

  // And that much can happen, whatever the limit: the end of one window and the
  // start of the next are a window apart.
  lemma TwiceIsReached(key: string, limit: nat, w: int, start: int)
    requires 0 < start && 0 < w && 0 < limit
    ensures var calls := Burst(limit, key, limit, w, start) + Burst(limit, key, limit, w, start + w);
            InOrder(start, calls) && OneRule(calls, key, limit, w)
            && Through(Limiter(map[], 0), calls, key, start, w) == 2 * limit
  {
    hide Through, ThroughUnpruned;
    var a, b := Burst(limit, key, limit, w, start), Burst(limit, key, limit, w, start + w);
    assert ComparableWindows(a + b, w);
    OnlyOwnBucket(map[], Limiter(map[], 0), a + b, key, limit, start, w, start, w);
    WindowThrough(NO_BUCKET, key, limit, w, start, b, start);
    assert b + [] == b;
    WindowThrough(Bucket(start, limit, start), key, limit, w, start + w, [], start);
    NothingAfterwards(Bucket(start + w, limit, start + w), [], key, start, w);
  }
}
