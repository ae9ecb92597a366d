/** `ORDER BY created_at DESC` and `ORDER BY created_at ASC` over a list of
    result rows, and `LIMIT`. SQL leaves the order of rows with equal
    timestamps unspecified; this sort keeps their scan order. */
module Listing {

  ghost predicate NewestFirst<T>(s: seq<T>, time: T -> int)
  {
    forall i, j :: 0 <= i < j < |s| ==> time(s[i]) >= time(s[j])
  }

  ghost predicate OldestFirst<T>(s: seq<T>, time: T -> int)
  {
    forall i, j :: 0 <= i < j < |s| ==> time(s[i]) <= time(s[j])
  }

  /** Putting `x` after every row at least as new and before the rest keeps
      a newest-first list newest first. */
  lemma InsertKeepsOrder<T>(s: seq<T>, x: T, k: nat, time: T -> int)
    requires NewestFirst(s, time)
    requires k <= |s|
    requires forall j :: 0 <= j < k ==> time(s[j]) >= time(x)
    requires k < |s| ==> time(s[k]) < time(x)
    ensures NewestFirst(s[..k] + [x] + s[k..], time)
  {
    var r := s[..k] + [x] + s[k..];
    assert forall i :: 0 <= i < k ==> r[i] == s[i];
    assert r[k] == x;
    assert forall i :: k < i < |r| ==> r[i] == s[i - 1];
    forall i, j | 0 <= i < j < |r| ensures time(r[i]) >= time(r[j]) {
      if j > k && i != k {
        assert time(r[i]) >= time(s[j - 1]);
      }
    }
  }

  /** Inserts `x` into a newest-first list, after every row at least as new. */
  method InsertNewestFirst<T>(s: seq<T>, x: T, time: T -> int) returns (r: seq<T>)
    requires NewestFirst(s, time)
    ensures multiset(r) == multiset(s) + multiset{x}
    ensures NewestFirst(r, time)
  {
    var k := 0;
    while k < |s| && time(s[k]) >= time(x)
      invariant 0 <= k <= |s|
      invariant forall j :: 0 <= j < k ==> time(s[j]) >= time(x)
    {
      k := k + 1;
    }
    InsertKeepsOrder(s, x, k, time);
    r := s[..k] + [x] + s[k..];
    assert s[..k] + s[k..] == s;
  }

  /** `ORDER BY time DESC`: the same rows, newest first. */
  method SortNewestFirst<T>(s: seq<T>, time: T -> int) returns (r: seq<T>)
    ensures multiset(r) == multiset(s)
    ensures NewestFirst(r, time)
  {
    r := [];
    var i := 0;
    while i < |s|
      invariant 0 <= i <= |s|
      invariant multiset(r) == multiset(s[..i])
      invariant NewestFirst(r, time)
    {
      r := InsertNewestFirst(r, s[i], time);
      assert s[..i + 1] == s[..i] + [s[i]];
      i := i + 1;
    }
    assert s[..i] == s;
  }

  /** `ORDER BY time ASC`: the same rows, oldest first. */
  method SortOldestFirst<T>(s: seq<T>, time: T -> int) returns (r: seq<T>)
    ensures multiset(r) == multiset(s)
    ensures OldestFirst(r, time)
  {
    r := SortNewestFirst(s, x => -time(x));
  }

  /** The first `limit` rows of a newest-first list are the newest rows:
      no row left out is newer than a row kept. */
  lemma LimitKeepsNewest<T>(s: seq<T>, time: T -> int, limit: nat, x: T)
    requires NewestFirst(s, time)
    requires x in s && x !in s[..if |s| < limit then |s| else limit]
    ensures forall y :: y in s[..if |s| < limit then |s| else limit] ==> time(y) >= time(x)
  {
    var n := if |s| < limit then |s| else limit;
    var k :| 0 <= k < |s| && s[k] == x;
    assert forall j :: 0 <= j < n ==> s[j] == s[..n][j];
    forall y | y in s[..n] ensures time(y) >= time(x) {
      var j :| 0 <= j < n && s[..n][j] == y;
    }
  }
}
