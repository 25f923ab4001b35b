/** The query shapes every repository shares: a table's rows in id order,
    `WHERE` filtering, `COUNT(*)` and `ORDER BY key DESC`. */
module Listing {

  /** The rows of a table whose ids lie below `bound`, in ascending id order. */
  function RowsById<T(==)>(table: map<int, T>, bound: int): (r: seq<T>)
    decreases if bound < 0 then 0 else bound
    ensures forall i :: 0 <= i < |r| ==> r[i] in table.Values
    ensures forall id :: id in table && 0 <= id < bound ==> table[id] in r
  {
    if bound <= 0 then []
    else if bound - 1 in table then
      var prev := RowsById(table, bound - 1);
      var r := prev + [table[bound - 1]];
      assert forall i :: 0 <= i < |prev| ==> r[i] == prev[i];
      r
    else RowsById(table, bound - 1)
  }

  /** `WHERE p` */
  function Filter<T>(s: seq<T>, p: T -> bool): (r: seq<T>)
    ensures |r| <= |s|
    ensures forall i :: 0 <= i < |r| ==> r[i] in s && p(r[i])
    ensures forall i :: 0 <= i < |s| && p(s[i]) ==> s[i] in r
  {
    if s == [] then []
    else (if p(s[0]) then [s[0]] else []) + Filter(s[1..], p)
  }

  /** `COUNT(*) ... WHERE p` */
  function Count<T>(s: seq<T>, p: T -> bool): nat {
    if s == [] then 0 else (if p(s[0]) then 1 else 0) + Count(s[1..], p)
  }

  lemma {:induction false} CountIsFilterLength<T>(s: seq<T>, p: T -> bool)
    ensures Count(s, p) == |Filter(s, p)|
  {
    if s != [] {
      CountIsFilterLength(s[1..], p);
    }
  }

  /** When `p` holds exactly where one of `a` and `b` does, the counts add up. */
  lemma {:induction false} CountSplit<T>(s: seq<T>, p: T -> bool, a: T -> bool, b: T -> bool)
    requires forall x :: p(x) <==> (a(x) || b(x))
    requires forall x :: !(a(x) && b(x))
    ensures Count(s, p) == Count(s, a) + Count(s, b)
  {
    if s != [] {
      CountSplit(s[1..], p, a, b);
    }
  }

  predicate SortedDesc<T>(s: seq<T>, key: T -> int) {
    forall i, j :: 0 <= i < j < |s| ==> key(s[i]) >= key(s[j])
  }

  /** Inserts `x` before the first element whose key is not larger than its own. */
  function Insert<T>(x: T, s: seq<T>, key: T -> int): (r: seq<T>)
    ensures multiset(r) == multiset(s) + multiset{x}
    ensures |r| == |s| + 1
  {
    if s == [] || key(s[0]) <= key(x) then [x] + s
    else
      assert s == [s[0]] + s[1..];
      [s[0]] + Insert(x, s[1..], key)
  }

  lemma {:induction false} InsertSorted<T>(x: T, s: seq<T>, key: T -> int)
    requires SortedDesc(s, key)
    ensures SortedDesc(Insert(x, s, key), key)
    ensures Insert(x, s, key)[0] == x || Insert(x, s, key)[0] == s[0]
  {
    if s != [] && key(s[0]) > key(x) {
      InsertSorted(x, s[1..], key);
      var rest := Insert(x, s[1..], key);
      if |s| > 1 {
        assert key(s[0]) >= key(s[1]);
      }
      assert key(s[0]) >= key(rest[0]);
    }
  }

  /** `ORDER BY key DESC`; rows with equal keys keep their input order. */
  function SortDesc<T>(s: seq<T>, key: T -> int): (r: seq<T>)
    ensures SortedDesc(r, key)
    ensures multiset(r) == multiset(s)
    ensures |r| == |s|
  {
    if s == [] then []
    else
      assert s == [s[0]] + s[1..];
      var sorted := SortDesc(s[1..], key);
      InsertSorted(s[0], sorted, key);
      Insert(s[0], sorted, key)
  }

  /** Sorting neither adds nor drops an element. */
  lemma SortedMembers<T>(s: seq<T>, key: T -> int)
    ensures forall i :: 0 <= i < |SortDesc(s, key)| ==> SortDesc(s, key)[i] in s
    ensures forall i :: 0 <= i < |s| ==> s[i] in SortDesc(s, key)
  {
    var r := SortDesc(s, key);
    forall i | 0 <= i < |r| ensures r[i] in s {
      assert r[i] in multiset(r);
    }
    forall i | 0 <= i < |s| ensures s[i] in r {
      assert s[i] in multiset(s);
    }
  }

  /** `LIMIT n`; a negative limit means no limit in SQLite. */
  function Limit<T>(s: seq<T>, n: int): (r: seq<T>)
    ensures n < 0 ==> r == s
    ensures 0 <= n ==> |r| == if n < |s| then n else |s|
    ensures r == s[..|r|]
  {
    if n < 0 || |s| <= n then s else s[..n]
  }

  // ---------------------------------------------------------------------
  // Row identities. `idOf` reads a row's primary key.

  /** The ids of the rows in `s`. */
  function IdSet<T>(s: seq<T>, idOf: T -> int): set<int> {
    set i | 0 <= i < |s| :: idOf(s[i])
  }

  predicate StrictlyIncreasing<T>(s: seq<T>, idOf: T -> int) {
    forall i, j :: 0 <= i < j < |s| ==> idOf(s[i]) < idOf(s[j])
  }

  /** Rows are listed in strictly increasing id order, all below the bound. */
  lemma {:induction false} RowsByIdIncreasing<T>(table: map<int, T>, bound: int, idOf: T -> int)
    requires forall id :: id in table ==> idOf(table[id]) == id
    ensures StrictlyIncreasing(RowsById(table, bound), idOf)
    ensures forall i :: 0 <= i < |RowsById(table, bound)| ==> idOf(RowsById(table, bound)[i]) < bound
    decreases if bound < 0 then 0 else bound
  {
    if bound > 0 {
      RowsByIdIncreasing(table, bound - 1, idOf);
    }
  }

  /** Every element of `s` is the row stored under its own id. */
  ghost predicate Keyed<T>(s: seq<T>, table: map<int, T>, idOf: T -> int) {
    forall i :: 0 <= i < |s| ==> idOf(s[i]) in table && table[idOf(s[i])] == s[i]
  }

  lemma {:induction false} RowsByIdKeyed<T>(table: map<int, T>, bound: int, idOf: T -> int)
    requires forall id :: id in table ==> idOf(table[id]) == id
    ensures Keyed(RowsById(table, bound), table, idOf)
    decreases if bound < 0 then 0 else bound
  {
    if bound > 0 {
      RowsByIdKeyed(table, bound - 1, idOf);
      var prev := RowsById(table, bound - 1);
      if bound - 1 in table {
        var r := RowsById(table, bound);
        assert r == prev + [table[bound - 1]];
        forall i | 0 <= i < |r| ensures idOf(r[i]) in table && table[idOf(r[i])] == r[i] {
          if i < |prev| {
            assert r[i] == prev[i];
          }
        }
      }
    }
  }

  /** Drawing elements from a keyed list keeps them keyed. */
  lemma KeyedWithin<T>(s: seq<T>, t: seq<T>, table: map<int, T>, idOf: T -> int)
    requires Keyed(s, table, idOf)
    requires forall i :: 0 <= i < |t| ==> t[i] in s
    ensures Keyed(t, table, idOf)
  {
    forall i | 0 <= i < |t| ensures idOf(t[i]) in table && table[idOf(t[i])] == t[i] {
      assert t[i] in s;
      var j :| 0 <= j < |s| && s[j] == t[i];
    }
  }

  lemma {:induction false} FilterIncreasing<T>(s: seq<T>, p: T -> bool, idOf: T -> int)
    requires StrictlyIncreasing(s, idOf)
    ensures StrictlyIncreasing(Filter(s, p), idOf)
  {
    if s != [] {
      var tail := s[1..];
      FilterIncreasing(tail, p, idOf);
      var rest := Filter(tail, p);
      var r := Filter(s, p);
      if p(s[0]) {
        assert r == [s[0]] + rest;
      } else {
        assert r == rest;
      }
    }
  }

  /** Distinct ids: as many ids as rows. */
  lemma {:induction false} IncreasingIdCount<T>(s: seq<T>, idOf: T -> int)
    requires StrictlyIncreasing(s, idOf)
    ensures |IdSet(s, idOf)| == |s|
  {
    if s != [] {
      IncreasingIdCount(s[1..], idOf);
      assert IdSet(s, idOf) == {idOf(s[0])} + IdSet(s[1..], idOf) by {
        forall x | x in IdSet(s, idOf) ensures x in {idOf(s[0])} + IdSet(s[1..], idOf) {
          var i :| 0 <= i < |s| && idOf(s[i]) == x;
          if i > 0 {
            assert s[1..][i - 1] == s[i];
          }
        }
        forall x | x in IdSet(s[1..], idOf) ensures x in IdSet(s, idOf) {
          var i :| 0 <= i < |s[1..]| && idOf(s[1..][i]) == x;
          assert s[i + 1] == s[1..][i];
        }
      }
      assert idOf(s[0]) !in IdSet(s[1..], idOf);
    }
  }

  /** A list never has more ids than rows. */
  lemma {:induction false} IdCountAtMostLength<T>(s: seq<T>, idOf: T -> int)
    ensures |IdSet(s, idOf)| <= |s|
  {
    if s != [] {
      IdCountAtMostLength(s[1..], idOf);
      var rest := IdSet(s[1..], idOf);
      if idOf(s[0]) in rest {
        assert {idOf(s[0])} + rest == rest;
      } else {
        assert |{idOf(s[0])} + rest| == |rest| + 1;
      }
      SubsetCard(IdSet(s, idOf), {idOf(s[0])} + rest);
      assert IdSet(s, idOf) <= {idOf(s[0])} + IdSet(s[1..], idOf) by {
        forall x | x in IdSet(s, idOf) ensures x in {idOf(s[0])} + IdSet(s[1..], idOf) {
          var i :| 0 <= i < |s| && idOf(s[i]) == x;
          if i > 0 {
            assert s[1..][i - 1] == s[i];
          }
        }
      }
    }
  }

  lemma SubsetCard(a: set<int>, b: set<int>)
    requires a <= b
    ensures |a| <= |b|
  {
    assert b == a + (b - a);
  }

  lemma DisjointCard(whole: set<int>, a: set<int>, b: set<int>)
    requires whole == a + b && a * b == {}
    ensures |whole| == |a| + |b|
  {
  }

  /** Map extensionality. */
  lemma SameEntries<T>(a: map<int, T>, b: map<int, T>)
    requires a.Keys == b.Keys
    requires forall id :: id in a ==> a[id] == b[id]
    ensures a == b
  {
    assert forall id :: id in a <==> id in b;
    assert forall id :: id in a ==> a[id] == b[id];
  }

  /** Reordering keeps the ids. */
  lemma SameMultisetSameIds<T>(s: seq<T>, t: seq<T>, idOf: T -> int)
    requires multiset(s) == multiset(t)
    ensures IdSet(s, idOf) == IdSet(t, idOf)
  {
    forall x | x in IdSet(s, idOf) ensures x in IdSet(t, idOf) {
      var i :| 0 <= i < |s| && idOf(s[i]) == x;
      assert s[i] in multiset(t);
      var j :| 0 <= j < |t| && t[j] == s[i];
    }
    forall x | x in IdSet(t, idOf) ensures x in IdSet(s, idOf) {
      var j :| 0 <= j < |t| && idOf(t[j]) == x;
      assert t[j] in multiset(s);
      var i :| 0 <= i < |s| && s[i] == t[j];
    }
  }
  // ---------------------------------------------------------------------
  // A whole `SELECT ... WHERE p ORDER BY key DESC` over a keyed table.

  function Query<T(==)>(table: map<int, T>, bound: int, p: T -> bool, key: T -> int): seq<T> {
    SortDesc(Filter(RowsById(table, bound), p), key)
  }

  /** Every row the query returns satisfies `p` and is stored under its own id. */
  lemma QuerySound<T>(table: map<int, T>, bound: int, p: T -> bool, key: T -> int, idOf: T -> int)
    requires forall id :: id in table ==> idOf(table[id]) == id
    ensures Keyed(Query(table, bound, p, key), table, idOf)
    ensures forall i :: 0 <= i < |Query(table, bound, p, key)| ==> p(Query(table, bound, p, key)[i])
  {
    var all := RowsById(table, bound);
    var matching := Filter(all, p);
    var r := Query(table, bound, p, key);
    RowsByIdKeyed(table, bound, idOf);
    KeyedWithin(all, matching, table, idOf);
    SortedMembers(matching, key);
    KeyedWithin(matching, r, table, idOf);
    forall i | 0 <= i < |r| ensures p(r[i]) {
      var k :| 0 <= k < |matching| && matching[k] == r[i];
    }
  }

  /** Every row below the bound that satisfies `p` is returned. */
  lemma QueryComplete<T>(table: map<int, T>, bound: int, p: T -> bool, key: T -> int)
    requires forall id :: id in table ==> 0 <= id < bound
    ensures forall id :: id in table && p(table[id]) ==> table[id] in Query(table, bound, p, key)
  {
    var all := RowsById(table, bound);
    var matching := Filter(all, p);
    SortedMembers(matching, key);
    forall id | id in table && p(table[id]) ensures table[id] in Query(table, bound, p, key) {
      var k :| 0 <= k < |all| && all[k] == table[id];
      var j :| 0 <= j < |matching| && matching[j] == table[id];
    }
  }

  /** The ids the query returns are exactly the ids of the matching rows. */
  lemma QueryIds<T>(table: map<int, T>, bound: int, p: T -> bool, key: T -> int, idOf: T -> int)
    requires forall id :: id in table ==> 0 <= id < bound && idOf(table[id]) == id
    ensures IdSet(Query(table, bound, p, key), idOf) == set id | id in table && p(table[id])
  {
    var r := Query(table, bound, p, key);
    QuerySound(table, bound, p, key, idOf);
    QueryComplete(table, bound, p, key);
    forall x | x in IdSet(r, idOf) ensures x in table && p(table[x]) {
      var i :| 0 <= i < |r| && idOf(r[i]) == x;
    }
    forall x | x in table && p(table[x]) ensures x in IdSet(r, idOf) {
      var j :| 0 <= j < |r| && r[j] == table[x];
      assert idOf(r[j]) == x;
    }
  }

  /** No row is returned twice: there are as many rows as ids. */
  lemma QueryDistinct<T>(table: map<int, T>, bound: int, p: T -> bool, key: T -> int, idOf: T -> int)
    requires forall id :: id in table ==> idOf(table[id]) == id
    ensures |IdSet(Query(table, bound, p, key), idOf)| == |Query(table, bound, p, key)|
  {
    var all := RowsById(table, bound);
    var matching := Filter(all, p);
    RowsByIdIncreasing(table, bound, idOf);
    FilterIncreasing(all, p, idOf);
    IncreasingIdCount(matching, idOf);
    SameMultisetSameIds(matching, Query(table, bound, p, key), idOf);
  }

  /** `COUNT(*) ... WHERE p` agrees with the length of the query. */
  lemma QueryCount<T>(table: map<int, T>, bound: int, p: T -> bool, key: T -> int)
    ensures Count(RowsById(table, bound), p) == |Query(table, bound, p, key)|
  {
    CountIsFilterLength(RowsById(table, bound), p);
  }
}
