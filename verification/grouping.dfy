/**
 * Grouping of rows by a key, as SQL `GROUP BY` and the PHP "find or create the entry for
 * this key, then add to it" loops do it: groups come in the order their key first appears.
 */
module Grouping {
  import opened Wrappers
  import opened Sorting

  datatype Group<K, T> = Group(key: K, members: seq<T>)

  /** The elements of `s` whose key is `k`, in order. */
  function MembersWith<K(==), T(!new)>(s: seq<T>, key: T -> K, k: K): (r: seq<T>)
    ensures forall x :: x in r <==> x in s && key(x) == k
  {
    if s == [] then []
    else
      var last := s[|s| - 1];
      MembersWith(s[..|s| - 1], key, k) + (if key(last) == k then [last] else [])
  }

  /** The distinct values of `xs`, each where it first appears. */
  function Deduplicated<K(==, !new)>(xs: seq<K>): (r: seq<K>)
    ensures forall x :: x in r <==> x in xs
    ensures forall i, j :: 0 <= i < j < |r| ==> r[i] != r[j]
    ensures |r| <= |xs|
  {
    if xs == [] then []
    else
      var prefix := Deduplicated(xs[..|xs| - 1]);
      var last := xs[|xs| - 1];
      assert forall x :: x in xs <==> x in xs[..|xs| - 1] || x == last by {
        assert xs == xs[..|xs| - 1] + [last];
      }
      if last in prefix then prefix else prefix + [last]
  }

  function KeysOf<K, T>(s: seq<T>, key: T -> K): (ks: seq<K>)
    ensures |ks| == |s|
    ensures forall i :: 0 <= i < |s| ==> ks[i] == key(s[i])
  {
    seq(|s|, i requires 0 <= i < |s| => key(s[i]))
  }

  /**
   * `GROUP BY key` over `s`: one group per distinct key, in the order keys first appear,
   * each holding exactly the rows with that key.
   */
  function GroupBy<K(==, !new), T(!new)>(s: seq<T>, key: T -> K): (gs: seq<Group<K, T>>)
    ensures forall i, j :: 0 <= i < j < |gs| ==> gs[i].key != gs[j].key
    ensures forall i :: 0 <= i < |gs| ==> gs[i].members == MembersWith(s, key, gs[i].key)
    ensures forall i :: 0 <= i < |gs| ==> gs[i].members != []
    ensures forall x :: x in s ==> exists i :: 0 <= i < |gs| && gs[i].key == key(x)
    ensures |gs| <= |s|
  {
    var ks := KeysOf(s, key);
    var keys := Deduplicated(ks);
    var gs := seq(|keys|, i requires 0 <= i < |keys| => Group(keys[i], MembersWith(s, key, keys[i])));
    forall i | 0 <= i < |gs| ensures gs[i].members != [] {
      assert keys[i] in ks;
      var j :| 0 <= j < |ks| && ks[j] == keys[i];
      assert s[j] in gs[i].members;
    }
    forall x | x in s ensures exists i :: 0 <= i < |gs| && gs[i].key == key(x) {
      var j :| 0 <= j < |s| && s[j] == x;
      assert ks[j] in keys;
      var m :| 0 <= m < |keys| && keys[m] == ks[j];
      assert gs[m].key == key(x);
    }
    gs
  }

  // ---------------------------------------------------------------------------
  // Tallies: the `$countries[$country]` / `$cities[$cityKey]` accumulators

  /**
   * One accumulator entry: the key it is stored under, the descriptive fields set when it
   * was created, and the two counters the loop increments.
   */
  datatype Entry<L> = Entry(key: string, info: L, requestCount: nat, uniqueIps: nat)

  function KeySet<L>(t: seq<Entry<L>>): set<string>
  {
    set i | 0 <= i < |t| :: t[i].key
  }

  predicate EntryKeysDistinct<L>(t: seq<Entry<L>>)
  {
    forall i, j :: 0 <= i < j < |t| ==> t[i].key != t[j].key
  }

  function EntryIndex<L>(t: seq<Entry<L>>, k: string): (r: Option<nat>)
    ensures r.Some? ==> r.value < |t| && t[r.value].key == k
    ensures r.None? ==> forall i :: 0 <= i < |t| ==> t[i].key != k
  {
    if t == [] then None
    else if t[0].key == k then Some(0)
    else
      match EntryIndex(t[1..], k)
      case Some(i) => Some(i + 1)
      case None => None
  }

  /**
   * `if (!isset($t[$k])) { $t[$k] = [info, 0, 0]; } $t[$k]['request_count'] += n;
   * $t[$k]['unique_ips']++;` — the fields of an existing entry are kept.
   */
  function Bump<L>(t: seq<Entry<L>>, k: string, info: L, n: nat): (r: seq<Entry<L>>)
    ensures EntryKeysDistinct(t) ==> EntryKeysDistinct(r)
    ensures KeySet(r) == KeySet(t) + {k}
  {
    match EntryIndex(t, k)
    case Some(i) =>
      var r := t[i := t[i].(requestCount := t[i].requestCount + n, uniqueIps := t[i].uniqueIps + 1)];
      forall y ensures y in KeySet(r) <==> y in KeySet(t) {
        if y in KeySet(r) {
          var j :| 0 <= j < |r| && r[j].key == y;
          assert t[j].key == y;
        }
        if y in KeySet(t) {
          var j :| 0 <= j < |t| && t[j].key == y;
          assert r[j].key == y;
        }
      }
      assert k in KeySet(t);
      r
    case None =>
      var r := t + [Entry(k, info, n, 1)];
      forall y ensures y in KeySet(r) <==> y in KeySet(t) || y == k {
        if y in KeySet(r) {
          var j :| 0 <= j < |r| && r[j].key == y;
          if j < |t| { assert t[j].key == y; }
        }
        if y in KeySet(t) {
          var j :| 0 <= j < |t| && t[j].key == y;
          assert r[j].key == y;
        }
        if y == k {
          assert r[|t|].key == y;
        }
      }
      r
  }

  function RequestCountOf<L>(e: Entry<L>): int { e.requestCount }
  function UniqueIpsOf<L>(e: Entry<L>): int { e.uniqueIps }

  lemma {:induction false} SumByUpdate<T>(s: seq<T>, i: nat, x: T, f: T -> int)
    requires i < |s|
    ensures SumBy(s[i := x], f) == SumBy(s, f) - f(s[i]) + f(x)
  {
    if i > 0 {
      SumByUpdate(s[1..], i - 1, x, f);
      assert s[i := x][1..] == s[1..][i - 1 := x];
    }
  }

  /** Each bump adds its count to the request total and one to the IP total. */
  lemma BumpTotals<L>(t: seq<Entry<L>>, k: string, info: L, n: nat)
    ensures SumBy(Bump(t, k, info, n), RequestCountOf) == SumBy(t, RequestCountOf) + n
    ensures SumBy(Bump(t, k, info, n), UniqueIpsOf) == SumBy(t, UniqueIpsOf) + 1
  {
    match EntryIndex(t, k)
    case Some(i) =>
      var e := t[i].(requestCount := t[i].requestCount + n, uniqueIps := t[i].uniqueIps + 1);
      SumByUpdate(t, i, e, RequestCountOf);
      SumByUpdate(t, i, e, UniqueIpsOf);
    case None =>
      var e := Entry(k, info, n, 1);
      SumByAppend(t, [e], RequestCountOf);
      SumByAppend(t, [e], UniqueIpsOf);
      assert SumBy([e], RequestCountOf) == n;
      assert SumBy([e], UniqueIpsOf) == 1;
  }

  // ---------------------------------------------------------------------------
  // The PHP dictionaries the tallies are built in

  /**
   * The dictionary `dict`, with its keys in insertion order `order`, holds the entries of
   * the tally `t` in the same order.
   */
  ghost predicate Mirrors<L>(dict: map<string, Entry<L>>, order: seq<string>, t: seq<Entry<L>>)
  {
    && |order| == |t|
    && EntryKeysDistinct(t)
    && (forall j :: 0 <= j < |order| ==> order[j] == t[j].key && order[j] in dict && dict[order[j]] == t[j])
    && dict.Keys == KeySet(t)
  }

  /** The dictionary's entries in insertion order: `array_values($t)`. */
  function Listed<L>(dict: map<string, Entry<L>>, order: seq<string>): seq<Entry<L>>
    requires forall k :: k in order ==> k in dict
  {
    seq(|order|, j requires 0 <= j < |order| => dict[order[j]])
  }

  lemma ListedMirrors<L>(dict: map<string, Entry<L>>, order: seq<string>, t: seq<Entry<L>>)
    requires Mirrors(dict, order, t)
    ensures forall k :: k in order ==> k in dict
    ensures Listed(dict, order) == t
  {
  }

  function Bumped<L>(e: Entry<L>, n: nat): Entry<L>
  {
    e.(requestCount := e.requestCount + n, uniqueIps := e.uniqueIps + 1)
  }

  /** A loop step on a key already in the dictionary is one `Bump` of the tally. */
  lemma ExistingIndex<L>(dict: map<string, Entry<L>>, order: seq<string>, t: seq<Entry<L>>, k: string)
    returns (j: nat)
    requires Mirrors(dict, order, t) && k in dict
    ensures j < |t| && order[j] == k && t[j].key == k && dict[k] == t[j]
    ensures EntryIndex(t, k) == Some(j)
  {
    assert k in KeySet(t);
    j :| 0 <= j < |t| && t[j].key == k;
    var i := EntryIndex(t, k).value;
    assert t[i].key == k;
  }

  lemma BumpExistingMirrors<L>(dict: map<string, Entry<L>>, order: seq<string>, t: seq<Entry<L>>,
                            k: string, info: L, n: nat)
    requires Mirrors(dict, order, t) && k in dict
    ensures Mirrors(dict[k := Bumped(dict[k], n)], order, Bump(t, k, info, n))
  {
    var j := ExistingIndex(dict, order, t, k);
    var t1 := Bump(t, k, info, n);
    var c1 := dict[k := Bumped(dict[k], n)];
    assert t1 == t[j := Bumped(t[j], n)];
    assert KeySet(t1) == KeySet(t) by {
      assert k in KeySet(t);
    }
    forall m | 0 <= m < |order|
      ensures order[m] == t1[m].key && order[m] in c1 && c1[order[m]] == t1[m]
    {
      if m != j {
        assert order[m] != k;
      }
    }
  }

  /** Bumping a key the tally lacks appends a fresh entry for it. */
  lemma BumpAppends<L>(t: seq<Entry<L>>, k: string, info: L, n: nat)
    requires k !in KeySet(t)
    ensures Bump(t, k, info, n) == t + [Entry(k, info, n, 1)]
  {
    forall j | 0 <= j < |t| ensures t[j].key != k {
      assert t[j].key in KeySet(t);
    }
  }

  /** Adding a new key to the dictionary and the end of the order mirrors appending its entry. */
  lemma MirrorsAppend<L>(dict: map<string, Entry<L>>, order: seq<string>, t: seq<Entry<L>>, e: Entry<L>)
    requires Mirrors(dict, order, t) && e.key !in dict
    ensures Mirrors(dict[e.key := e], order + [e.key], t + [e])
  {
    var c, o, t1 := dict[e.key := e], order + [e.key], t + [e];
    forall m | 0 <= m < |o|
      ensures o[m] == t1[m].key && o[m] in c && c[o[m]] == t1[m]
    {
      if m < |order| {
        assert o[m] == order[m] && t1[m] == t[m] && order[m] != e.key;
      }
    }
    forall i, j | 0 <= i < j < |t1| ensures t1[i].key != t1[j].key {
      if j == |t| {
        assert t1[i] == t[i] && t[i].key in KeySet(t);
      }
    }
    assert KeySet(t1) == KeySet(t) + {e.key} by {
      forall y | y in KeySet(t1) ensures y in KeySet(t) + {e.key} {
        var j :| 0 <= j < |t1| && t1[j].key == y;
        if j < |t| { assert t[j].key == y; }
      }
      forall y | y in KeySet(t) ensures y in KeySet(t1) {
        var j :| 0 <= j < |t| && t[j].key == y;
        assert t1[j].key == y;
      }
      assert t1[|t|].key == e.key;
    }
  }

  /** A loop step on a new key is one `Bump` of the tally, which appends its entry. */
  lemma BumpNewMirrors<L>(dict: map<string, Entry<L>>, order: seq<string>, t: seq<Entry<L>>,
                       k: string, info: L, n: nat)
    requires Mirrors(dict, order, t) && k !in dict
    ensures var c0 := dict[k := Entry(k, info, 0, 0)];
            Mirrors(c0[k := Bumped(c0[k], n)], order + [k], Bump(t, k, info, n))
  {
    var c0 := dict[k := Entry(k, info, 0, 0)];
    assert c0[k := Bumped(c0[k], n)] == dict[k := Entry(k, info, n, 1)];
    BumpAppends(t, k, info, n);
    MirrorsAppend(dict, order, t, Entry(k, info, n, 1));
  }

}
