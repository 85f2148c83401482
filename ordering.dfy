/** `ORDER BY <column> DESC` over an in-memory table: rows sorted by a
    timestamp key, newest first. Rows with equal keys may come in either
    order, as in the database, so the contracts say only "sorted and a
    permutation of the input". */
module Ordering {

  ghost predicate SortedDesc<T>(s: seq<T>, key: T -> int)
  {
    forall i, j :: 0 <= i < j < |s| ==> key(s[i]) >= key(s[j])
  }

  /** Every row of a permutation of `rest + [x]` is no newer than `h` when
      `h` is no older than any row of `rest` and than `x`. */
  lemma BoundedByHead<T>(h: T, rest: seq<T>, x: T, t: seq<T>, key: T -> int)
    requires forall k :: 0 <= k < |rest| ==> key(h) >= key(rest[k])
    requires key(h) >= key(x)
    requires multiset(t) == multiset(rest) + multiset{x}
    ensures forall k :: 0 <= k < |t| ==> key(h) >= key(t[k])
  {
    forall k | 0 <= k < |t| ensures key(h) >= key(t[k]) {
      assert t[k] in multiset(t);
      if t[k] != x {
        assert t[k] in multiset(rest);
        var m :| 0 <= m < |rest| && rest[m] == t[k];
      }
    }
  }

  /** Inserts `x` into a newest-first sequence. */
  function InsertDesc<T>(s: seq<T>, x: T, key: T -> int): (r: seq<T>)
    requires SortedDesc(s, key)
    ensures SortedDesc(r, key)
    ensures multiset(r) == multiset(s) + multiset{x}
    ensures |r| == |s| + 1
  {
    if |s| == 0 || key(x) >= key(s[0]) then
      [x] + s
    else
      var tail := InsertDesc(s[1..], x, key);
      assert s == [s[0]] + s[1..];
      BoundedByHead(s[0], s[1..], x, tail, key);
      [s[0]] + tail
  }

  /** Insertion sort, newest first. */
  function SortDesc<T>(s: seq<T>, key: T -> int): (r: seq<T>)
    ensures SortedDesc(r, key)
    ensures multiset(r) == multiset(s)
    ensures |r| == |s|
  {
    if |s| == 0 then []
    else
      assert s == [s[0]] + s[1..];
      InsertDesc(SortDesc(s[1..], key), s[0], key)
  }

  /** A sorted permutation holds exactly the rows of its input. */
  lemma SortDescMembers<T>(s: seq<T>, key: T -> int)
    ensures forall x :: x in SortDesc(s, key) <==> x in s
  {
    var r := SortDesc(s, key);
    forall x ensures x in r <==> x in s {
      assert x in r <==> x in multiset(r);
      assert x in s <==> x in multiset(s);
    }
  }
}
