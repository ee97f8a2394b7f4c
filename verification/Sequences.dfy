// Facts about sequences and multisets that the room model leans on.
module Sequences {
  ghost predicate Distinct<T>(s: seq<T>) {
    forall i, j :: 0 <= i < j < |s| ==> s[i] != s[j]
  }

  ghost function Elements<T>(s: seq<T>): set<T> {
    set x | x in s
  }

  // The sequence with the first occurrence of x taken out.
  function Without<T(==)>(s: seq<T>, x: T): seq<T> {
    if s == [] then []
    else if s[0] == x then s[1..]
    else [s[0]] + Without(s[1..], x)
  }

  // The position of the first occurrence of x, or |s| when there is none.
  function IndexOf<T(==)>(s: seq<T>, x: T): (i: nat)
    ensures i <= |s|
    ensures i < |s| ==> s[i] == x
    ensures x !in s[..i]
    ensures i == |s| ==> x !in s
  {
    if s == [] || s[0] == x then 0
    else
      var rest := IndexOf(s[1..], x);
      assert s[..rest + 1] == [s[0]] + s[1..][..rest];
      rest + 1
  }

  lemma {:induction false} WithoutIsSlice<T>(s: seq<T>, x: T)
    ensures x in s ==> IndexOf(s, x) < |s| && Without(s, x) == s[..IndexOf(s, x)] + s[IndexOf(s, x) + 1..]
    ensures x !in s ==> Without(s, x) == s
  {
    if s != [] && s[0] != x {
      WithoutIsSlice(s[1..], x);
      if x in s {
        var i := IndexOf(s[1..], x);
        assert IndexOf(s, x) == i + 1;
        assert s[..i + 1] == [s[0]] + s[1..][..i];
        assert s[i + 2..] == s[1..][i + 1..];
      } else {
        assert s == [s[0]] + s[1..];
      }
    }
  }

  lemma WithoutKeeps<T>(s: seq<T>, x: T)
    requires Distinct(s)
    ensures Distinct(Without(s, x))
    ensures x !in Without(s, x)
    ensures forall y :: y != x ==> (y in Without(s, x) <==> y in s)
    ensures |Without(s, x)| == if x in s then |s| - 1 else |s|
  {
    WithoutIsSlice(s, x);
  }

  lemma WithoutConcat<T>(a: seq<T>, b: seq<T>, x: T)
    ensures Without(a + b, x) == if x in a then Without(a, x) + b else a + Without(b, x)
  {
    if a == [] {
      assert a + b == b;
    } else {
      assert (a + b)[1..] == a[1..] + b;
      if a[0] != x {
        WithoutConcat(a[1..], b, x);
        assert x in a <==> x in a[1..];
      }
    }
  }

  // n copies of a multiset.
  function Times<T(==)>(n: nat, m: multiset<T>): multiset<T> {
    if n == 0 then multiset{} else m + Times(n - 1, m)
  }

  lemma {:induction false} TimesAdds<T>(a: nat, b: nat, m: multiset<T>)
    ensures Times(a + b, m) == Times(a, m) + Times(b, m)
  {
    if a != 0 {
      TimesAdds(a - 1, b, m);
    }
  }

  lemma MultisetOfConcat<T>(a: seq<T>, b: seq<T>)
    ensures multiset(a + b) == multiset(a) + multiset(b)
  {
  }

  lemma DistinctCardinality<T>(s: seq<T>)
    requires Distinct(s)
    ensures |Elements(s)| == |s|
  {
    if s != [] {
      DistinctCardinality(s[1..]);
      assert Elements(s) == {s[0]} + Elements(s[1..]);
    }
  }

  lemma {:induction false} FewerElements<T>(s: seq<T>)
    ensures |Elements(s)| <= |s| && (|Elements(s)| == |s| ==> Distinct(s))
  {
    if s != [] {
      FewerElements(s[1..]);
      assert Elements(s) == {s[0]} + Elements(s[1..]);
      if |Elements(s)| == |s| {
        assert s[0] !in Elements(s[1..]);
        assert forall i :: 0 < i < |s| ==> s[i] == s[1..][i - 1];
      }
    }
  }

  lemma SubsetCardinality<T>(a: set<T>, b: set<T>)
    requires a <= b
    ensures |a| <= |b|
    ensures |a| == |b| ==> a == b
  {
    var rest := b - a;
    assert b == a + rest;
    assert |b| == |a| + |rest|;
  }

  lemma SmallMod(a: int, n: int)
    requires 0 <= a < n
    ensures a % n == a
  {
  }

  lemma ModInRange(a: int, n: int)
    requires n > 0
    ensures 0 <= a % n < n
  {
  }

  lemma {:induction false} WithoutWithin<T>(s: seq<T>, x: T)
    ensures forall y :: y in Without(s, x) ==> y in s
  {
    if s != [] && s[0] != x {
      WithoutWithin(s[1..], x);
    }
  }

  lemma LastApart<T>(s: seq<T>)
    requires s != []
    ensures multiset(s) == multiset(s[..|s| - 1]) + multiset{s[|s| - 1]}
  {
    assert s == s[..|s| - 1] + [s[|s| - 1]];
  }

  // Moving one part across a sum of multisets.
  lemma MovedAcross<T>(a: multiset<T>, b: multiset<T>, c: multiset<T>, d: multiset<T>)
    ensures (a + b) + (c + d) == (a + c) + (b + d)
    ensures (a + b) + c == a + (b + c)
    ensures a + b == b + a
  {
  }

  lemma ModWraps(n: int)
    requires n > 0
    ensures (-1) % n == n - 1 && n % n == 0
  {
    assert (-1) % n == (-1 + n) % n;
  }
}
