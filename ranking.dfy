/**
 * The ordering behind every rank in the store: a stable sort on a numeric key,
 * largest key first. This is what `Array.prototype.sort` does with the comparator
 * `(a, b) => b.totalRaised - a.totalRaised`: the sort is stable, so records with
 * equal keys keep the relative order they had in the array being sorted.
 */
module Ranking {

  /** Keys never increase from left to right. */
  ghost predicate SortedDesc<T>(s: seq<T>, key: T -> int) {
    forall i, j :: 0 <= i < j < |s| ==> key(s[i]) >= key(s[j])
  }

  /** No two elements share the value of `f` (an id, an e-mail address). */
  ghost predicate Distinct<T, K>(s: seq<T>, f: T -> K) {
    forall i, j :: 0 <= i < j < |s| ==> f(s[i]) != f(s[j])
  }

  /** `Array.prototype.map` on a fresh array. */
  function Map<T, U>(f: T -> U, s: seq<T>): (r: seq<U>)
    ensures |r| == |s|
    ensures forall i :: 0 <= i < |s| ==> r[i] == f(s[i])
  {
    if s == [] then [] else [f(s[0])] + Map(f, s[1..])
  }

  /** `[x]` when `x` has key `v`, otherwise empty. */
  function Pick<T>(x: T, key: T -> int, v: int): seq<T> {
    if key(x) == v then [x] else []
  }

  /** The elements of `s` whose key is `v`, in their order in `s`. */
  function WithKey<T>(s: seq<T>, key: T -> int, v: int): seq<T> {
    if s == [] then [] else Pick(s[0], key, v) + WithKey(s[1..], key, v)
  }

  lemma WithKeyCons<T>(x: T, s: seq<T>, key: T -> int, v: int)
    ensures WithKey([x] + s, key, v) == Pick(x, key, v) + WithKey(s, key, v)
  {
    assert ([x] + s)[1..] == s;
  }

  /**
   * Places `x` in front of the first element whose key is not larger than its own,
   * so that `x` precedes every element of `s` with an equal key.
   */
  function Insert<T>(x: T, s: seq<T>, key: T -> int): (r: seq<T>)
    ensures |r| == |s| + 1
    ensures multiset(r) == multiset(s) + multiset{x}
  {
    if s == [] || key(x) >= key(s[0]) then [x] + s
    else
      assert s == [s[0]] + s[1..];
      [s[0]] + Insert(x, s[1..], key)
  }

  /** Every element of `Insert(x, s, key)` is `x` or an element of `s`. */
  lemma InsertMember<T>(x: T, s: seq<T>, key: T -> int, j: int)
    requires 0 <= j < |Insert(x, s, key)|
    ensures Insert(x, s, key)[j] == x || Insert(x, s, key)[j] in s
  {
    var r := Insert(x, s, key);
    assert r[j] in multiset(r);
  }

  lemma {:induction false} InsertSorted<T>(x: T, s: seq<T>, key: T -> int)
    requires SortedDesc(s, key)
    ensures SortedDesc(Insert(x, s, key), key)
  {
    if s == [] || key(x) >= key(s[0]) {
    } else {
      var rest := Insert(x, s[1..], key);
      InsertSorted(x, s[1..], key);
      forall j | 0 <= j < |rest| ensures key(s[0]) >= key(rest[j]) {
        InsertMember(x, s[1..], key, j);
      }
      assert Insert(x, s, key) == [s[0]] + rest;
    }
  }

  /** The stable descending sort: `s` sorted by `key`, largest first. */
  function SortDesc<T>(s: seq<T>, key: T -> int): (r: seq<T>)
    ensures |r| == |s|
    ensures multiset(r) == multiset(s)
    ensures SortedDesc(r, key)
  {
    if s == [] then []
    else
      assert s == [s[0]] + s[1..];
      InsertSorted(s[0], SortDesc(s[1..], key), key);
      Insert(s[0], SortDesc(s[1..], key), key)
  }

  /** Two sequences of which one is empty may be swapped in front of a third. */
  lemma SwapSingles<T>(p: seq<T>, q: seq<T>, w: seq<T>)
    requires p == [] || q == []
    ensures p + (q + w) == q + (p + w)
  {
    if p == [] {
      assert p + (q + w) == q + w && p + w == w;
    } else {
      assert q + (p + w) == p + w && q + w == w;
    }
  }

  /** Two elements: the larger key first, and the first one when the keys are equal. */
  lemma SortDescPair<T>(x: T, y: T, key: T -> int)
    ensures SortDesc([x, y], key) == if key(x) >= key(y) then [x, y] else [y, x]
  {
    assert [x, y][1..] == [y];
    assert SortDesc([y], key) == Insert(y, [], key) == [y];
  }

  lemma {:induction false} InsertWithKey<T>(x: T, s: seq<T>, key: T -> int, v: int)
    ensures WithKey(Insert(x, s, key), key, v) == WithKey([x] + s, key, v)
  {
    if s != [] && key(x) < key(s[0]) {
      var rest := Insert(x, s[1..], key);
      var p, q, w := Pick(s[0], key, v), Pick(x, key, v), WithKey(s[1..], key, v);
      assert s == [s[0]] + s[1..];
      calc {
        WithKey(Insert(x, s, key), key, v);
        { assert Insert(x, s, key) == [s[0]] + rest; WithKeyCons(s[0], rest, key, v); }
        p + WithKey(rest, key, v);
        { InsertWithKey(x, s[1..], key, v); WithKeyCons(x, s[1..], key, v); }
        p + (q + w);
        { SwapSingles(p, q, w); }
        q + (p + w);
        { WithKeyCons(s[0], s[1..], key, v); WithKeyCons(x, s, key, v); }
        WithKey([x] + s, key, v);
      }
    }
  }

  /**
   * Stability: for every key value, the elements carrying it appear in the sorted
   * sequence in exactly the order they had before sorting.
   */
  lemma {:induction false} SortDescStable<T>(s: seq<T>, key: T -> int, v: int)
    ensures WithKey(SortDesc(s, key), key, v) == WithKey(s, key, v)
  {
    if s != [] {
      InsertWithKey(s[0], SortDesc(s[1..], key), key, v);
      WithKeyCons(s[0], SortDesc(s[1..], key), key, v);
      SortDescStable(s[1..], key, v);
    }
  }

  /** Sorting a sequence that is already in order changes nothing. */
  lemma {:induction false} SortDescOfSorted<T>(s: seq<T>, key: T -> int)
    requires SortedDesc(s, key)
    ensures SortDesc(s, key) == s
  {
    if s != [] {
      SortDescOfSorted(s[1..], key);
      assert s == [s[0]] + s[1..];
    }
  }

  /** Re-running the sort yields the same order, so ranks are deterministic. */
  lemma SortDescIdempotent<T>(s: seq<T>, key: T -> int)
    ensures SortDesc(SortDesc(s, key), key) == SortDesc(s, key)
  {
    SortDescOfSorted(SortDesc(s, key), key);
  }

  lemma {:induction false} InsertMap<T, U>(f: T -> U, x: T, s: seq<T>, key: T -> int, key': U -> int)
    requires forall y :: key'(f(y)) == key(y)
    ensures Map(f, Insert(x, s, key)) == Insert(f(x), Map(f, s), key')
  {
    if s == [] || key(x) >= key(s[0]) {
      assert Map(f, [x] + s) == [f(x)] + Map(f, s);
    } else {
      InsertMap(f, x, s[1..], key, key');
      assert Map(f, s)[1..] == Map(f, s[1..]);
      assert Map(f, [s[0]] + Insert(x, s[1..], key)) == [f(s[0])] + Map(f, Insert(x, s[1..], key));
    }
  }

  /**
   * Projecting the records (dropping a field, say) before or after sorting gives the
   * same sequence when the projection keeps the key.
   */
  lemma {:induction false} SortDescMap<T, U>(f: T -> U, s: seq<T>, key: T -> int, key': U -> int)
    requires forall y :: key'(f(y)) == key(y)
    ensures Map(f, SortDesc(s, key)) == SortDesc(Map(f, s), key')
  {
    if s != [] {
      SortDescMap(f, s[1..], key, key');
      InsertMap(f, s[0], SortDesc(s[1..], key), key, key');
      assert Map(f, s)[1..] == Map(f, s[1..]);
    }
  }

  lemma {:induction false} InsertKeepsDistinct<T, K>(x: T, s: seq<T>, key: T -> int, f: T -> K)
    requires Distinct(s, f)
    requires forall j :: 0 <= j < |s| ==> f(x) != f(s[j])
    ensures Distinct(Insert(x, s, key), f)
  {
    if s == [] || key(x) >= key(s[0]) {
      assert forall j :: 0 <= j < |s| ==> ([x] + s)[j + 1] == s[j];
    } else {
      var rest := Insert(x, s[1..], key);
      InsertKeepsDistinct(x, s[1..], key, f);
      forall j | 0 <= j < |rest| ensures f(s[0]) != f(rest[j]) {
        InsertMember(x, s[1..], key, j);
      }
      assert Insert(x, s, key) == [s[0]] + rest;
      assert forall j :: 0 <= j < |rest| ==> ([s[0]] + rest)[j + 1] == rest[j];
    }
  }

  /** Sorting neither duplicates nor merges records: distinct values stay distinct. */
  lemma {:induction false} SortDescKeepsDistinct<T, K>(s: seq<T>, key: T -> int, f: T -> K)
    requires Distinct(s, f)
    ensures Distinct(SortDesc(s, key), f)
  {
    if s != [] {
      SortDescKeepsDistinct(s[1..], key, f);
      var sorted := SortDesc(s[1..], key);
      forall j | 0 <= j < |sorted| ensures f(s[0]) != f(sorted[j]) {
        assert sorted[j] in multiset(s[1..]);
      }
      InsertKeepsDistinct(s[0], sorted, key, f);
    }
  }
}
