// The canonical order of submissions (sortedSubmissions in
// backend/internal/realtime/state.go).
module SubmissionOrder {
  import opened Sequences
  import opened RoomTypes
  import opened RoomRules

  ghost predicate Keyed(subs: map<Id, Submission>) {
    forall k :: k in subs ==> subs[k].id == k
  }

  // Strictly increasing in time, then id.
  ghost predicate Ordered(s: seq<Submission>) {
    forall i, j :: 0 <= i < j < |s| ==> Earlier(s[i], s[j])
  }

  // The sequence lists the submissions of the map and nothing else.
  ghost predicate Lists(s: seq<Submission>, subs: map<Id, Submission>) {
    (forall x :: x in s ==> x.id in subs && subs[x.id] == x)
    && forall k :: k in subs ==> subs[k] in s
  }

  lemma {:induction false} SomeoneIsFirst(subs: map<Id, Submission>)
    requires Keyed(subs) && subs != map[]
    ensures exists k :: IsFirst(subs, k)
    decreases |subs|
  {
    var k :| k in subs;
    var rest := subs - {k};
    assert subs.Keys == rest.Keys + {k};
    if rest == map[] {
      assert IsFirst(subs, k);
    } else {
      SomeoneIsFirst(rest);
      var j :| IsFirst(rest, j);
      assert IsFirst(subs, j) || IsFirst(subs, k);
    }
  }

  // Sorting loses nothing, adds nothing, and leaves no choice of order.
  lemma {:induction false} SortedLists(subs: map<Id, Submission>)
    requires Keyed(subs)
    ensures Ordered(SortedSubmissions(subs)) && Lists(SortedSubmissions(subs), subs)
    decreases |subs|
  {
    if subs != map[] {
      SomeoneIsFirst(subs);
      var k :| IsFirst(subs, k);
      var rest := subs - {k};
      assert subs.Keys == rest.Keys + {k};
      SortedLists(rest);
      FirstIsUnique(subs, k);
      FirstThenRest(subs, k, SortedSubmissions(rest));
    }
  }

  lemma FirstThenRest(subs: map<Id, Submission>, k: Id, s: seq<Submission>)
    requires Keyed(subs) && IsFirst(subs, k) && Ordered(s) && Lists(s, subs - {k})
    ensures Ordered([subs[k]] + s) && Lists([subs[k]] + s, subs)
  {
    hide Earlier;
    var t := [subs[k]] + s;
    forall x | x in s
      ensures Earlier(subs[k], x) && x.id in subs && subs[x.id] == x
    {
      assert x.id in subs - {k};
    }
    forall j | j in subs
      ensures subs[j] in t
    {
      if j != k {
        assert j in subs - {k};
      }
    }
  }

  lemma FirstIsUnique(subs: map<Id, Submission>, k: Id)
    requires IsFirst(subs, k)
    ensures forall j :: IsFirst(subs, j) ==> j == k
    ensures SortedSubmissions(subs) == [subs[k]] + SortedSubmissions(subs - {k})
  {
  }

  // Whatever order the entries are met in, a sorted list of them is that list.
  lemma {:induction false} OrderedIsCanonical(s: seq<Submission>, subs: map<Id, Submission>)
    requires Keyed(subs) && Ordered(s) && Lists(s, subs)
    ensures s == SortedSubmissions(subs)
    decreases |subs|
  {
    hide Lists, Ordered, IsFirst, Keyed;
    NoneOrSome(s, subs);
    if subs == map[] {
      assert SortedSubmissions(subs) == [] by { NobodyIsFirst(subs); }
    } else {
      var k := s[0].id;
      HeadIsFirst(s, subs);
      FirstIsUnique(subs, k);
      OrderedIsCanonical(s[1..], subs - {k});
    }
  }

  lemma NoneOrSome(s: seq<Submission>, subs: map<Id, Submission>)
    requires Lists(s, subs)
    ensures s == [] <==> subs == map[]
  {
    assert s != [] ==> s[0] in s;
    if subs != map[] {
      var k :| k in subs;
      assert subs[k] in s;
    }
  }

  lemma NobodyIsFirst(subs: map<Id, Submission>)
    requires subs == map[]
    ensures SortedSubmissions(subs) == []
  {
  }

  lemma HeadIsFirst(s: seq<Submission>, subs: map<Id, Submission>)
    requires Keyed(subs) && Ordered(s) && Lists(s, subs) && s != []
    ensures IsFirst(subs, s[0].id) && subs[s[0].id] == s[0]
    ensures Ordered(s[1..]) && Lists(s[1..], subs - {s[0].id})
    ensures Keyed(subs - {s[0].id}) && |subs - {s[0].id}| < |subs|
  {
    hide Earlier;
    var k := s[0].id;
    assert subs.Keys == (subs - {k}).Keys + {k};
    HeadIsEarlier(s, subs);
    HeadOrTail(s);
    forall j | j in subs && j != k
      ensures subs[j] in s[1..]
    {
      assert subs[j] in s;
    }
  }

  lemma HeadOrTail(s: seq<Submission>)
    requires s != []
    ensures forall x :: x in s <==> x == s[0] || x in s[1..]
    ensures Ordered(s) ==> Ordered(s[1..])
  {
    hide Earlier;
    assert s == [s[0]] + s[1..];
  }

  lemma HeadIsEarlier(s: seq<Submission>, subs: map<Id, Submission>)
    requires Ordered(s) && Lists(s, subs) && s != []
    ensures forall x :: x in s[1..] ==> Earlier(s[0], x) && x.id != s[0].id
  {
    forall x | x in s[1..]
      ensures Earlier(s[0], x) && x.id != s[0].id
    {
      var i :| 0 <= i < |s[1..]| && s[1..][i] == x;
      assert Earlier(s[0], s[i + 1]) && s[0] in s && s[i + 1] in s;
    }
  }

  lemma InsertedOrder(s: seq<Submission>, at: nat, x: Submission)
    requires Ordered(s) && at <= |s|
    requires forall i :: 0 <= i < at ==> Earlier(s[i], x)
    requires forall i :: at <= i < |s| ==> Earlier(x, s[i])
    ensures Ordered(s[..at] + [x] + s[at..])
  {
    hide Earlier;
  }

  lemma InsertedLists(s: seq<Submission>, at: nat, x: Submission, subs: map<Id, Submission>)
    requires Lists(s, subs) && at <= |s| && x.id !in subs
    ensures Lists(s[..at] + [x] + s[at..], subs[x.id := x])
  {
    hide Earlier;
    var t := s[..at] + [x] + s[at..];
    assert s == s[..at] + s[at..];
    assert forall y :: y in t <==> y == x || y in s;
  }

  lemma StillEarlier(s: seq<Submission>, at: nat, x: Submission)
    requires Ordered(s) && at < |s| && Earlier(x, s[at])
    ensures forall i :: at <= i < |s| ==> Earlier(x, s[i])
  {
  }

  lemma OneMore(values: map<Id, Submission>, left: set<Id>, k: Id)
    requires k in left && left <= values.Keys
    ensures k !in values - left && (values - left)[k := values[k]] == values - (left - {k})
  {
    var a, b := (values - left)[k := values[k]], values - (left - {k});
    assert a.Keys == b.Keys;
  }

  // One step of an insertion: where x belongs among those already in order.
  method Insert(s: seq<Submission>, x: Submission, ghost subs: map<Id, Submission>) returns (out: seq<Submission>)
    requires Ordered(s) && Lists(s, subs) && x.id !in subs
    ensures Ordered(out) && Lists(out, subs[x.id := x])
  {
    hide Lists;
    var at := 0;
    while at < |s| && Earlier(s[at], x)
      invariant at <= |s| && forall i :: 0 <= i < at ==> Earlier(s[i], x)
    {
      at := at + 1;
    }
    if at < |s| {
      Apart(s, at, x, subs);
      StillEarlier(s, at, x);
    }
    InsertedOrder(s, at, x);
    InsertedLists(s, at, x, subs);
    out := s[..at] + [x] + s[at..];
  }

  lemma Apart(s: seq<Submission>, at: nat, x: Submission, subs: map<Id, Submission>)
    requires Lists(s, subs) && x.id !in subs && at < |s| && !Earlier(s[at], x)
    ensures Earlier(x, s[at])
  {
    assert s[at] in s;
  }

  // The range over the map, in whatever order it comes, and the sort.
  method Sort(values: map<Id, Submission>) returns (out: seq<Submission>)
    requires Keyed(values)
    ensures out == SortedSubmissions(values)
  {
    hide Earlier;
    out := [];
    var left := values.Keys;
    assert values - left == map[];
    while left != {}
      invariant left <= values.Keys
      invariant Ordered(out) && Lists(out, values - left)
      decreases |left|
    {
      var k :| k in left;
      OneMore(values, left, k);
      out := Insert(out, values[k], values - left);
      left := left - {k};
    }
    assert values - left == values;
    OrderedIsCanonical(out, values);
  }
}
