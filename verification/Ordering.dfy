/** Listing a finite set in a strict total order, and the rank of an element in that list. */
module Ordering {

  ghost predicate StrictTotal<T(!new)>(s: set<T>, before: (T, T) -> bool) {
    && (forall x :: x in s ==> !before(x, x))
    && (forall x, y, z :: x in s && y in s && z in s && before(x, y) && before(y, z) ==> before(x, z))
    && (forall x, y :: x in s && y in s && x != y ==> before(x, y) || before(y, x))
  }

  ghost predicate IsLeast<T(!new)>(s: set<T>, before: (T, T) -> bool, x: T) {
    x in s && forall y :: y in s && y != x ==> before(x, y)
  }

  lemma {:induction false} LeastExists<T(!new)>(s: set<T>, before: (T, T) -> bool)
    requires s != {} && StrictTotal(s, before)
    ensures exists x :: IsLeast(s, before, x)
  {
    var x :| x in s;
    var rest := s - {x};
    if rest == {} {
      assert s == {x};
      assert IsLeast(s, before, x);
    } else {
      LeastExists(rest, before);
      var y :| IsLeast(rest, before, y);
      assert IsLeast(s, before, if before(x, y) then x else y);
    }
  }

  ghost function Listed<T(!new)>(s: set<T>, before: (T, T) -> bool): (r: seq<T>)
    requires StrictTotal(s, before)
    ensures forall x :: x in r <==> x in s
    ensures |r| == |s|
  {
    if s == {} then []
    else
      LeastExists(s, before);
      var x :| IsLeast(s, before, x);
      [x] + Listed(s - {x}, before)
  }

  ghost predicate InOrder<T(!new)>(r: seq<T>, before: (T, T) -> bool) {
    forall i, k :: 0 <= i < k < |r| ==> before(r[i], r[k])
  }

  lemma {:induction false} ListedInOrder<T(!new)>(s: set<T>, before: (T, T) -> bool)
    requires StrictTotal(s, before)
    ensures InOrder(Listed(s, before), before)
  {
    if s != {} {
      LeastExists(s, before);
      var r := Listed(s, before);
      assert IsLeast(s, before, r[0]) && r[1..] == Listed(s - {r[0]}, before);
      ListedInOrder(s - {r[0]}, before);
      forall i, k | 0 <= i < k < |r| ensures before(r[i], r[k]) {
        if i == 0 { assert r[k] == r[1..][k - 1]; }
        else { assert r[i] == r[1..][i - 1] && r[k] == r[1..][k - 1]; }
      }
    }
  }

  function Elements<T(==)>(r: seq<T>): set<T> {
    set x | x in r
  }

  lemma {:induction false} OrderedCount<T(!new)>(r: seq<T>, before: (T, T) -> bool)
    requires InOrder(r, before) && forall x :: x in r ==> !before(x, x)
    ensures |Elements(r)| == |r|
  {
    if r != [] {
      var n := |r| - 1;
      var p := r[..n];
      OrderedCount(p, before);
      assert r == p + [r[n]];
      assert forall k :: 0 <= k < n ==> before(r[k], r[n]) && p[k] == r[k];
      assert r[n] !in p;
      assert Elements(r) == Elements(p) + {r[n]};
    }
  }

  lemma EarlierIfBefore<T(!new)>(s: set<T>, before: (T, T) -> bool, r: seq<T>, k: nat, i: nat)
    requires StrictTotal(s, before) && InOrder(r, before) && (forall x :: x in r ==> x in s)
    requires k < |r| && i < |r|
    ensures before(r[k], r[i]) <==> k < i
  {
    assert r[k] in s && r[i] in s;
    assert i < k ==> before(r[i], r[k]);
  }

  lemma HeadIsLeast<T(!new)>(s: set<T>, before: (T, T) -> bool, r: seq<T>, x: T)
    requires StrictTotal(s, before) && InOrder(r, before) && (forall y :: y in r <==> y in s) && IsLeast(s, before, x)
    ensures r != [] && r[0] == x
  {
    var k :| 0 <= k < |r| && r[k] == x;
    assert r[0] in s;
    EarlierIfBefore(s, before, r, k, 0);
  }

  lemma TailMembers<T(!new)>(s: set<T>, before: (T, T) -> bool, r: seq<T>)
    requires StrictTotal(s, before) && InOrder(r, before) && (forall y :: y in r <==> y in s) && r != []
    ensures forall y :: y in r[1..] <==> y in s - {r[0]}
  {
    forall y ensures y in r[1..] <==> y in s - {r[0]} {
      if y in r {
        var m :| 0 <= m < |r| && r[m] == y;
        assert 0 < m ==> r[1..][m - 1] == y && before(r[0], r[m]);
      }
      if y in r[1..] {
        var m :| 0 <= m < |r| - 1 && r[1..][m] == y;
        assert before(r[0], r[m + 1]) && r[m + 1] in r;
      }
    }
  }

  lemma ListedHead<T(!new)>(s: set<T>, before: (T, T) -> bool)
    requires s != {} && StrictTotal(s, before)
    ensures var q := Listed(s, before);
            |q| > 0 && IsLeast(s, before, q[0]) && StrictTotal(s - {q[0]}, before) && q == [q[0]] + Listed(s - {q[0]}, before)
  {
    LeastExists(s, before);
  }

  ghost predicate IsListing<T(!new)>(s: set<T>, before: (T, T) -> bool, r: seq<T>) {
    InOrder(r, before) && forall x :: x in r <==> x in s
  }

  lemma TailIsListing<T(!new)>(s: set<T>, before: (T, T) -> bool, r: seq<T>, x: T)
    requires StrictTotal(s, before) && IsListing(s, before, r) && IsLeast(s, before, x)
    ensures r != [] && r == [x] + r[1..] && IsListing(s - {x}, before, r[1..])
  {
    HeadIsLeast(s, before, r, x);
    TailMembers(s, before, r);
    TailInOrder(r, before);
    hide InOrder;
  }

  lemma NothingIsListed<T(!new)>(s: set<T>, before: (T, T) -> bool, r: seq<T>)
    requires s == {} && IsListing(s, before, r)
    ensures r == []
  {
    OrderedCount(r, before);
    assert Elements(r) == s;
  }

  /** There is only one ordered listing of a set. */
  lemma {:induction false} ListedIsUnique<T(!new)>(s: set<T>, before: (T, T) -> bool, r: seq<T>)
    requires StrictTotal(s, before) && IsListing(s, before, r)
    ensures r == Listed(s, before)
  {
    hide IsListing, StrictTotal, IsLeast;
    if s == {} {
      NothingIsListed(s, before, r);
    } else {
      var x := Listed(s, before)[0];
      ListedHead(s, before);
      hide Listed;
      TailIsListing(s, before, r, x);
      ListedIsUnique(s - {x}, before, r[1..]);
    }
  }

  lemma TailInOrder<T(!new)>(r: seq<T>, before: (T, T) -> bool)
    requires r != [] && InOrder(r, before)
    ensures InOrder(r[1..], before)
  {
    forall i, k | 0 <= i < k < |r| - 1 ensures before(r[1..][i], r[1..][k]) { assert before(r[i + 1], r[k + 1]); }
  }

  /** ORDER BY, and sort.Strings: the elements of s in order. */
  method Sort<T(==,!new)>(s: set<T>, before: (T, T) -> bool) returns (r: seq<T>)
    requires StrictTotal(s, before)
    ensures r == Listed(s, before)
  {
    r := [];
    var rest := s;
    while rest != {}
      invariant rest <= s && InOrder(r, before) && forall x :: x in r <==> x in s - rest
      decreases |rest|
    {
      var x :| x in rest;
      var i := 0;
      while i < |r| && before(r[i], x)
        invariant 0 <= i <= |r| && forall k :: 0 <= k < i ==> before(r[k], x)
      {
        i := i + 1;
      }
      InsertKeepsOrder(s, before, r, i, x);
      r := r[..i] + [x] + r[i..];
      rest := rest - {x};
    }
    ListedIsUnique(s, before, r);
  }

  lemma InsertKeepsOrder<T(!new)>(s: set<T>, before: (T, T) -> bool, r: seq<T>, i: nat, x: T)
    requires StrictTotal(s, before) && InOrder(r, before) && (forall y :: y in r ==> y in s) && x in s && x !in r
    requires i <= |r| && (forall k :: 0 <= k < i ==> before(r[k], x)) && (i < |r| ==> !before(r[i], x))
    ensures var t := r[..i] + [x] + r[i..]; InOrder(t, before) && forall y :: y in t <==> y in r || y == x
  {
    forall k | i <= k < |r| ensures before(x, r[k]) {
      assert r[i] in s && r[k] in s && before(x, r[i]);
    }
    InsertMembers(r, i, x);
  }

  lemma InsertMembers<T>(r: seq<T>, i: nat, x: T)
    requires i <= |r|
    ensures forall y :: y in r[..i] + [x] + r[i..] <==> y in r || y == x
  {
    assert r == r[..i] + r[i..];
  }
}
