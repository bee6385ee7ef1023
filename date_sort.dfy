/** The newest-first order the admin listings use for orders, payments and KYC
    records: a row's time is its `createdAt`, or 0 when that is null, and the
    comparator puts the later time first. `Array.prototype.sort` is stable, so
    with this comparator its result is the stable sort `SortNewestFirst` below. */
module DateSort {
  import opened Base

  /** `x.createdAt ? x.createdAt.getTime() : 0`. */
  function TimeOf(createdAt: Option<int>): (t: int)
    ensures createdAt.None? ==> t == 0
    ensures createdAt.Some? ==> t == createdAt.value
  {
    if createdAt.Some? then createdAt.value else 0
  }

  /** `(a, b) => bTime - aTime`: negative when `a` goes first. */
  function NewestFirst(a: Option<int>, b: Option<int>): (d: int)
    ensures d < 0 <==> TimeOf(a) > TimeOf(b)
    ensures d == 0 <==> TimeOf(a) == TimeOf(b)
    ensures d > 0 <==> TimeOf(a) < TimeOf(b)
  {
    TimeOf(b) - TimeOf(a)
  }

  /** The comparator is antisymmetric and a row without a time ties with one
      created at time 0. */
  lemma NewestFirstConsistent(a: Option<int>, b: Option<int>, c: Option<int>)
    ensures NewestFirst(a, b) == -NewestFirst(b, a)
    ensures NewestFirst(a, b) <= 0 && NewestFirst(b, c) <= 0 ==> NewestFirst(a, c) <= 0
    ensures NewestFirst(None, Some(0)) == 0
  {
  }

  /** No row comes before a row with a later time. */
  predicate SortedNewestFirst<T>(s: seq<T>, created: T -> Option<int>)
  {
    forall i, j :: 0 <= i < j < |s| ==> TimeOf(created(s[i])) >= TimeOf(created(s[j]))
  }

  /** Insert `x` before the first row that is not later than it. */
  function Insert<T>(x: T, s: seq<T>, created: T -> Option<int>): (r: seq<T>)
    ensures |r| == |s| + 1
    ensures multiset(r) == multiset(s) + multiset{x}
    ensures forall k :: 0 <= k < |r| ==> r[k] == x || r[k] in s
  {
    if s == [] then [x]
    else if NewestFirst(created(x), created(s[0])) <= 0 then [x] + s
    else
      assert s == [s[0]] + s[1..];
      [s[0]] + Insert(x, s[1..], created)
  }

  /** A row no earlier than any row of a sorted listing can go in front of it. */
  lemma ConsSorted<T>(y: T, rest: seq<T>, created: T -> Option<int>)
    requires SortedNewestFirst(rest, created)
    requires forall k :: 0 <= k < |rest| ==> TimeOf(created(y)) >= TimeOf(created(rest[k]))
    ensures SortedNewestFirst([y] + rest, created)
  {
    var r := [y] + rest;
    forall i, j | 0 <= i < j < |r| ensures TimeOf(created(r[i])) >= TimeOf(created(r[j])) {
      assert r[j] == rest[j - 1];
      if i > 0 {
        assert r[i] == rest[i - 1];
      }
    }
  }

  /** Inserting into a sorted listing keeps it sorted. */
  lemma {:induction false} InsertSorted<T>(x: T, s: seq<T>, created: T -> Option<int>)
    requires SortedNewestFirst(s, created)
    ensures SortedNewestFirst(Insert(x, s, created), created)
  {
    if s == [] {
    } else if NewestFirst(created(x), created(s[0])) <= 0 {
      ConsSorted(x, s, created);
    } else {
      var rest := Insert(x, s[1..], created);
      InsertSorted(x, s[1..], created);
      forall k | 0 <= k < |rest| ensures TimeOf(created(s[0])) >= TimeOf(created(rest[k])) {
        if rest[k] != x {
          var m :| 0 <= m < |s[1..]| && s[1..][m] == rest[k];
          assert s[1..][m] == s[m + 1];
        }
      }
      ConsSorted(s[0], rest, created);
    }
  }

  /** The listing order: the same rows, sorted newest first. Rows with equal
      times keep their original order, as the stable built-in sort keeps them. */
  function SortNewestFirst<T>(s: seq<T>, created: T -> Option<int>): (r: seq<T>)
    ensures multiset(r) == multiset(s)
  {
    if s == [] then []
    else
      assert s == [s[0]] + s[1..];
      Insert(s[0], SortNewestFirst(s[1..], created), created)
  }

  /** The listing is sorted newest first. */
  lemma {:induction false} SortSorted<T>(s: seq<T>, created: T -> Option<int>)
    ensures SortedNewestFirst(SortNewestFirst(s, created), created)
  {
    if s != [] {
      SortSorted(s[1..], created);
      InsertSorted(s[0], SortNewestFirst(s[1..], created), created);
    }
  }

  /** `x` alone when it was created at time `t`, and nothing otherwise. */
  function AtTime<T>(x: T, created: T -> Option<int>, t: int): (r: seq<T>)
    ensures r == [x] <==> TimeOf(created(x)) == t
    ensures r == [] <==> TimeOf(created(x)) != t
  {
    if TimeOf(created(x)) == t then [x] else []
  }

  /** The rows of `s` created at time `t`, in the order of `s`. */
  function WithTime<T>(s: seq<T>, created: T -> Option<int>, t: int): (r: seq<T>)
    ensures |r| <= |s|
  {
    if s == [] then [] else AtTime(s[0], created, t) + WithTime(s[1..], created, t)
  }

  /** Two pieces of which one is empty can be swapped. */
  lemma SwapEmpty<T>(a: seq<T>, b: seq<T>, w: seq<T>)
    requires a == [] || b == []
    ensures a + (b + w) == b + (a + w)
  {
    if a == [] {
      assert a + (b + w) == b + w;
    } else {
      assert b + (a + w) == a + w;
    }
  }

  /** Insertion puts `x` ahead of every row with its own time: the rows it
      passes are all later. */
  lemma {:induction false} InsertStable<T>(x: T, s: seq<T>, created: T -> Option<int>, t: int)
    ensures WithTime(Insert(x, s, created), created, t) == AtTime(x, created, t) + WithTime(s, created, t)
  {
    var r := Insert(x, s, created);
    if s == [] {
      assert r == [x] && r[1..] == [];
    } else if NewestFirst(created(x), created(s[0])) <= 0 {
      assert r[0] == x && r[1..] == s;
    } else {
      var rest := Insert(x, s[1..], created);
      InsertStable(x, s[1..], created, t);
      var h0 := AtTime(s[0], created, t);
      assert WithTime(r, created, t) == h0 + WithTime(rest, created, t) by {
        assert r[0] == s[0] && r[1..] == rest;
      }
      SwapEmpty(h0, AtTime(x, created, t), WithTime(s[1..], created, t));
    }
  }

  /** The sort is stable: for every time, the rows created at that time come
      out in the order they went in. */
  lemma {:induction false} SortStable<T>(s: seq<T>, created: T -> Option<int>, t: int)
    ensures WithTime(SortNewestFirst(s, created), created, t) == WithTime(s, created, t)
  {
    if s != [] {
      SortStable(s[1..], created, t);
      InsertStable(s[0], SortNewestFirst(s[1..], created), created, t);
    }
  }
}
