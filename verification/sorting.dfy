/**
 * Ordering and summing of result lists. SQL `ORDER BY ... DESC` and PHP's stable `uasort`
 * with a `$b <=> $a` comparator both produce a list ordered by a non-increasing key; here
 * that is a stable insertion sort, and `Take` is `LIMIT` / `array_slice($xs, 0, n)`.
 */
module Sorting {

  ghost predicate NonIncreasing<T>(s: seq<T>, key: T -> int)
  {
    forall i, j :: 0 <= i < j < |s| ==> key(s[i]) >= key(s[j])
  }

  ghost predicate AtMost<T>(s: seq<T>, key: T -> int, b: int)
  {
    forall i :: 0 <= i < |s| ==> key(s[i]) <= b
  }

  function Insert<T>(x: T, s: seq<T>, key: T -> int): (r: seq<T>)
    requires NonIncreasing(s, key)
    ensures |r| == |s| + 1
    ensures multiset(r) == multiset(s) + multiset{x}
    ensures NonIncreasing(r, key)
    ensures forall b :: AtMost(s, key, b) && key(x) <= b ==> AtMost(r, key, b)
  {
    if s == [] then [x]
    else if key(x) >= key(s[0]) then [x] + s
    else
      var rest := Insert(x, s[1..], key);
      InsertedBehind(x, s, rest, key);
      [s[0]] + rest
  }

  /** Inserting behind a head that outranks `x` keeps the head first and the order intact. */
  lemma InsertedBehind<T>(x: T, s: seq<T>, rest: seq<T>, key: T -> int)
    requires s != [] && NonIncreasing(s, key) && key(x) < key(s[0])
    requires |rest| == |s| && multiset(rest) == multiset(s[1..]) + multiset{x} && NonIncreasing(rest, key)
    requires forall b :: AtMost(s[1..], key, b) && key(x) <= b ==> AtMost(rest, key, b)
    ensures multiset([s[0]] + rest) == multiset(s) + multiset{x}
    ensures NonIncreasing([s[0]] + rest, key)
    ensures forall b :: AtMost(s, key, b) && key(x) <= b ==> AtMost([s[0]] + rest, key, b)
  {
    assert AtMost(s[1..], key, key(s[0]));
    assert AtMost(rest, key, key(s[0]));
    assert s == [s[0]] + s[1..];
    var r := [s[0]] + rest;
    forall i, j | 0 <= i < j < |r| ensures key(r[i]) >= key(r[j]) {
      if i > 0 {
        assert r[i] == rest[i - 1] && r[j] == rest[j - 1];
      } else {
        assert r[j] == rest[j - 1];
      }
    }
    forall b | AtMost(s, key, b) && key(x) <= b ensures AtMost(r, key, b) {
      assert AtMost(s[1..], key, b);
      assert AtMost(rest, key, b);
      assert key(s[0]) <= b;
      forall i | 0 <= i < |r| ensures key(r[i]) <= b {
        if i > 0 { assert r[i] == rest[i - 1]; }
      }
    }
  }

  /** The list ordered by non-increasing `key`, keeping the input order among ties. */
  function SortDesc<T>(s: seq<T>, key: T -> int): (r: seq<T>)
    ensures |r| == |s|
    ensures multiset(r) == multiset(s)
    ensures NonIncreasing(r, key)
  {
    if s == [] then []
    else
      assert s == [s[0]] + s[1..];
      Insert(s[0], SortDesc(s[1..], key), key)
  }

  /** The first `n` elements, or all of them when there are fewer. */
  function Take<T>(s: seq<T>, n: nat): (r: seq<T>)
    ensures |r| <= n && |r| <= |s|
    ensures n >= |s| ==> r == s
    ensures r == s[..|r|]
  {
    if |s| <= n then s else s[..n]
  }

  lemma TakeKeepsOrder<T>(s: seq<T>, n: nat, key: T -> int)
    requires NonIncreasing(s, key)
    ensures NonIncreasing(Take(s, n), key)
  {
  }

  /** What the first `n` of a sorted copy hold all comes from the original. */
  lemma TakenFrom<T>(s: seq<T>, key: T -> int, n: nat)
    ensures forall x :: x in Take(SortDesc(s, key), n) ==> x in s
  {
    var r := SortDesc(s, key);
    forall x | x in Take(r, n) ensures x in s {
      var i :| 0 <= i < |Take(r, n)| && Take(r, n)[i] == x;
      assert r[i] == x;
      assert x in multiset(r);
    }
  }

  /**
   * The first `n` of a sorted copy are a top-`n` selection: as many as there are up to `n`,
   * drawn from the original, and nothing left behind outranks anything kept.
   */
  lemma TopN<T>(s: seq<T>, key: T -> int, n: nat)
    ensures var r := Take(SortDesc(s, key), n);
      && |r| == (if |s| <= n then |s| else n)
      && multiset(r) <= multiset(s)
      && forall x, y :: x in multiset(s) - multiset(r) && y in r ==> key(x) <= key(y)
  {
    var sorted := SortDesc(s, key);
    var r := Take(sorted, n);
    var rest := sorted[|r|..];
    assert sorted == r + rest;
    assert multiset(sorted) == multiset(r) + multiset(rest);
    forall x, y | x in multiset(s) - multiset(r) && y in r ensures key(x) <= key(y) {
      assert x in multiset(rest);
      var i :| 0 <= i < |rest| && rest[i] == x;
      var j :| 0 <= j < |r| && r[j] == y;
      assert sorted[|r| + i] == x && sorted[j] == y;
    }
  }

  function SumBy<T>(s: seq<T>, f: T -> int): int
  {
    if s == [] then 0 else f(s[0]) + SumBy(s[1..], f)
  }

  lemma {:induction false} SumByAppend<T>(a: seq<T>, b: seq<T>, f: T -> int)
    ensures SumBy(a + b, f) == SumBy(a, f) + SumBy(b, f)
  {
    if a != [] {
      assert (a + b)[1..] == a[1..] + b;
      SumByAppend(a[1..], b, f);
    } else {
      assert a + b == b;
    }
  }

  lemma {:induction false} SumByInsert<T>(x: T, s: seq<T>, key: T -> int, f: T -> int)
    requires NonIncreasing(s, key)
    ensures SumBy(Insert(x, s, key), f) == f(x) + SumBy(s, f)
  {
    if s != [] && key(x) < key(s[0]) {
      SumByInsert(x, s[1..], key, f);
      var r := Insert(x, s, key);
      assert r[1..] == Insert(x, s[1..], key);
    }
  }

  /** Sorting neither adds nor loses any amount. */
  lemma {:induction false} SumBySort<T>(s: seq<T>, key: T -> int, f: T -> int)
    ensures SumBy(SortDesc(s, key), f) == SumBy(s, f)
  {
    if s != [] {
      SumBySort(s[1..], key, f);
      SumByInsert(s[0], SortDesc(s[1..], key), key, f);
    }
  }

  function Negated(x: int): int { -x }

  ghost predicate Ascending(s: seq<int>)
  {
    forall i, j :: 0 <= i < j < |s| ==> s[i] <= s[j]
  }

  /** The list in ascending order: `->sort()->values()` on numbers. */
  function SortAsc(s: seq<int>): (r: seq<int>)
    ensures |r| == |s|
    ensures multiset(r) == multiset(s)
    ensures Ascending(r)
  {
    var r := SortDesc(s, Negated);
    assert forall i, j :: 0 <= i < j < |r| ==> Negated(r[i]) >= Negated(r[j]);
    r
  }
}
