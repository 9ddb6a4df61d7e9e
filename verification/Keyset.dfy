/**
 The keyset query every cursor walk of the repository issues:
 `WHERE id > cursor ORDER BY id LIMIT n` over the ids that satisfy the remaining filters.
 */
module Keyset {
  import opened Prelude

  function Above(ids: set<int>, cursor: int): set<int> {
    set i | i in ids && i > cursor
  }

  lemma {:induction false} MinExists(s: set<int>) returns (m: int)
    requires s != {}
    ensures m in s && forall x :: x in s ==> m <= x
  {
    m := AnyOf(s);
    var rest := s - {m};
    if rest != {} {
      var least := MinExists(rest);
      assert forall x :: x in s ==> x == m || x in rest;
      m := if m <= least then m else least;
    } else {
      assert forall x :: x in s && x != m ==> x in rest;
    }
  }

  function Min(s: set<int>): (m: int)
    requires s != {}
    ensures m in s && forall x :: x in s ==> m <= x
  {
    assert exists m :: m in s && forall x :: x in s ==> m <= x by {
      var m := MinExists(s);
    }
    var m :| m in s && forall x :: x in s ==> m <= x;
    m
  }

  lemma {:induction false} MaxExists(s: set<int>) returns (m: int)
    requires s != {}
    ensures m in s && forall x :: x in s ==> x <= m
  {
    m := AnyOf(s);
    var rest := s - {m};
    if rest != {} {
      var greatest := MaxExists(rest);
      assert forall x :: x in s ==> x == m || x in rest;
      m := if m >= greatest then m else greatest;
    } else {
      assert forall x :: x in s && x != m ==> x in rest;
    }
  }

  /** `max(id)`, and 0 for no row at all. */
  function MaxOrZero(s: set<int>): (m: int)
    ensures s == {} ==> m == 0
    ensures s != {} ==> m in s
    ensures forall x :: x in s ==> x <= m
  {
    if s == {} then 0
    else
      assert exists m :: m in s && forall x :: x in s ==> x <= m by {
        var m := MaxExists(s);
      }
      var m :| m in s && forall x :: x in s ==> x <= m;
      m
  }

  predicate Increasing(s: seq<int>) {
    forall i, j :: 0 <= i < j < |s| ==> s[i] < s[j]
  }

  /** `i` is one of the rows a query with this cursor and limit, answered with `r`, must have returned. */
  predicate Reached(r: seq<int>, limit: nat, i: int) {
    |r| < limit || (|r| > 0 && i <= r[|r| - 1])
  }

  /** `r` answers the query: it ascends, holds only matching ids, and all that it must have reached. */
  predicate Answers(ids: set<int>, cursor: int, limit: nat, r: seq<int>) {
    && |r| <= limit && Increasing(r)
    && (forall i :: i in r ==> i in ids && i > cursor)
    && (forall i :: i in ids && i > cursor && Reached(r, limit, i) ==> i in r)
  }

  lemma HeadAndTail(ids: set<int>, cursor: int, limit: nat, m: int, tail: seq<int>)
    requires limit >= 1 && m in ids && m > cursor && forall i :: i in ids && i > cursor ==> m <= i
    requires Answers(ids, m, limit - 1, tail)
    ensures Answers(ids, cursor, limit, [m] + tail)
  {
    var r := [m] + tail;
    IncreasingAppend([m], tail, m);
    assert forall j :: 0 <= j < |tail| ==> tail[j] in tail;
    forall i | i in ids && i > cursor && Reached(r, limit, i) ensures i in r {
      if i != m {
        assert tail != [] ==> r[|r| - 1] == tail[|tail| - 1];
        assert Reached(tail, limit - 1, i);
      }
    }
  }

  /** The at most `limit` smallest ids above `cursor`, in increasing order. */
  function Select(ids: set<int>, cursor: int, limit: nat): (r: seq<int>)
    ensures |r| <= limit && Increasing(r)
    ensures forall i :: i in r ==> i in ids && i > cursor
    ensures forall i :: i in ids && i > cursor && Reached(r, limit, i) ==> i in r
    decreases limit
  {
    var rest := Above(ids, cursor);
    assert forall i :: i in ids && i > cursor ==> i in rest;
    if limit == 0 || rest == {} then []
    else
      var m := Min(rest);
      var tail := Select(ids, m, limit - 1);
      HeadAndTail(ids, cursor, limit, m, tail);
      [m] + tail
  }

  function Between(ids: set<int>, low: int, high: int): set<int> {
    set i | i in ids && low < i < high
  }

  lemma LeastAbove(ids: set<int>, cursor: int)
    requires Above(ids, cursor) != {}
    ensures var m := Min(Above(ids, cursor)); m in ids && m > cursor && forall i :: i in ids && i > cursor ==> m <= i
  {
    assert forall i :: i in ids && i > cursor ==> i in Above(ids, cursor);
  }

  lemma SelectHead(ids: set<int>, cursor: int, limit: nat, id: int)
    requires limit > 0 && Above(ids, cursor) != {}
    ensures var m := Min(Above(ids, cursor));
            id in Select(ids, cursor, limit) <==> id == m || id in Select(ids, m, limit - 1)
  {
  }

  lemma NoneBetween(ids: set<int>, cursor: int, m: int)
    requires forall i :: i in ids && i > cursor ==> m <= i
    ensures Between(ids, cursor, m) == {}
  {
  }

  lemma SelectNone(ids: set<int>, cursor: int, limit: nat, id: int)
    requires limit == 0 || Above(ids, cursor) == {}
    ensures id !in Select(ids, cursor, limit) && !(id in ids && id > cursor && |Between(ids, cursor, id)| < limit)
  {
    assert id in ids && id > cursor ==> id in Above(ids, cursor);
  }

  /** How many come before, seen from the first one on. */
  lemma BeforeFrom(ids: set<int>, cursor: int, limit: nat, m: int, id: int)
    requires limit > 0 && m in ids && m > cursor && forall i :: i in ids && i > cursor ==> m <= i
    ensures (id in ids && id > cursor && |Between(ids, cursor, id)| < limit)
            <==> id == m || (id in ids && id > m && |Between(ids, m, id)| < limit - 1)
  {
    NoneBetween(ids, cursor, m);
    if id in ids && id > m {
      BetweenSplit(ids, cursor, m, id);
    }
  }

  predicate IsEarly(ids: set<int>, cursor: int, limit: int, id: int) {
    id in ids && id > cursor && |Between(ids, cursor, id)| < limit
  }

  lemma OneMore(ids: set<int>, cursor: int, limit: nat, id: int)
    requires limit > 0 && Above(ids, cursor) != {}
    requires var m := Min(Above(ids, cursor)); id in Select(ids, m, limit - 1) <==> IsEarly(ids, m, limit - 1, id)
    ensures id in Select(ids, cursor, limit) <==> IsEarly(ids, cursor, limit, id)
  {
    var m := Min(Above(ids, cursor));
    SelectHead(ids, cursor, limit, id);
    LeastAbove(ids, cursor);
    BeforeFrom(ids, cursor, limit, m, id);
  }

  /** The answer consists of exactly those ids above the cursor with fewer than `limit` such ids before them. */
  lemma {:induction false} SelectIsFirst(ids: set<int>, cursor: int, limit: nat, id: int)
    ensures id in Select(ids, cursor, limit) <==> IsEarly(ids, cursor, limit, id)
    decreases limit
  {
    if limit == 0 || Above(ids, cursor) == {} {
      SelectNone(ids, cursor, limit, id);
    } else {
      SelectIsFirst(ids, Min(Above(ids, cursor)), limit - 1, id);
      OneMore(ids, cursor, limit, id);
    }
  }

  lemma BetweenSplit(ids: set<int>, cursor: int, m: int, id: int)
    requires m in ids && cursor < m < id && forall i :: i in ids && i > cursor ==> m <= i
    ensures |Between(ids, cursor, id)| == 1 + |Between(ids, m, id)|
  {
    assert Between(ids, cursor, id) == {m} + Between(ids, m, id);
  }

  /** The increasing enumeration of a set is unique: order and contents determine a query's answer. */
  lemma {:induction false} IncreasingUnique(a: seq<int>, b: seq<int>)
    requires Increasing(a) && Increasing(b)
    requires forall i :: i in a <==> i in b
    ensures a == b
  {
    assert |a| > 0 ==> a[0] in a && a[0] in b;
    assert |b| > 0 ==> b[0] in b && b[0] in a;
    if a != [] && b != [] {
      assert a[0] == b[0];
      forall i ensures i in a[1..] <==> i in b[1..] {
        if i in a[1..] { assert i in b; var k :| 0 <= k < |b| && b[k] == i; assert k != 0; assert b[1..][k-1] == i; }
        if i in b[1..] { assert i in a; var k :| 0 <= k < |a| && a[k] == i; assert k != 0; assert a[1..][k-1] == i; }
      }
      IncreasingUnique(a[1..], b[1..]);
      assert a == [a[0]] + a[1..] && b == [b[0]] + b[1..];
    }
  }

  lemma IncreasingAppend(a: seq<int>, b: seq<int>, cut: int)
    requires Increasing(a) && Increasing(b)
    requires forall i :: i in a ==> i <= cut
    requires forall i :: i in b ==> cut < i
    ensures Increasing(a + b)
  {
    forall i, j | 0 <= i < j < |a + b| ensures (a + b)[i] < (a + b)[j] {
      if i < |a| { assert a[i] in a; }
      if j >= |a| { assert b[j - |a|] in b; }
    }
  }

  lemma IncreasingTail(ids: seq<int>)
    requires ids != [] && Increasing(ids)
    ensures Increasing(ids[1..])
    ensures forall id :: id in ids <==> id == ids[0] || id in ids[1..]
    ensures forall id :: id in ids[1..] ==> ids[0] < id
  {
    assert ids == [ids[0]] + ids[1..];
    forall id | id in ids[1..] ensures ids[0] < id {
      var k :| 0 <= k < |ids[1..]| && ids[1..][k] == id;
      assert ids[k + 1] == id;
    }
  }

  lemma SubsetSize<T>(a: set<T>, b: set<T>)
    requires a <= b
    ensures |a| <= |b|
    ensures |a| == |b| ==> a == b
  {
    assert b == a + (b - a);
    assert |b| == |a| + |b - a|;
  }
}
