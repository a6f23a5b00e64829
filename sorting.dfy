/**
 * The two array built-ins the simulations rely on: `filter`, and the stable
 * `sort` with a comparator that subtracts one element's key from the
 * other's, modelled as a stable insertion sort on the key.
 */
module Sorting {

  /** The elements satisfying P, in their original order. */
  function Filter<T>(s: seq<T>, P: T -> bool): (r: seq<T>)
    ensures |r| <= |s|
  {
    if s == [] then []
    else (if P(s[0]) then [s[0]] else []) + Filter(s[1..], P)
  }

  lemma {:induction false} FilterNone<T>(s: seq<T>, P: T -> bool)
    requires forall i :: 0 <= i < |s| ==> !P(s[i])
    ensures Filter(s, P) == []
  {
    if s != [] {
      assert forall i :: 0 <= i < |s[1..]| ==> s[1..][i] == s[i + 1];
      FilterNone(s[1..], P);
    }
  }

  /** The filtered list holds exactly the elements satisfying P. */
  lemma {:induction false} FilterMembers<T>(s: seq<T>, P: T -> bool)
    ensures forall i :: 0 <= i < |Filter(s, P)| ==> Filter(s, P)[i] in s && P(Filter(s, P)[i])
    ensures forall i :: 0 <= i < |s| && P(s[i]) ==> s[i] in Filter(s, P)
  {
    if s != [] {
      FilterMembers(s[1..], P);
      var rest := Filter(s[1..], P);
      var r := Filter(s, P);
      assert r == (if P(s[0]) then [s[0]] else []) + rest;
      forall i | 0 <= i < |r|
        ensures r[i] in s && P(r[i])
      {
        if !P(s[0]) || i > 0 {
          var i' := if P(s[0]) then i - 1 else i;
          assert r[i] == rest[i'];
          assert rest[i'] in s[1..];
        }
      }
      forall i | 1 <= i < |s| && P(s[i])
        ensures s[i] in r
      {
        assert s[i] == s[1..][i - 1];
        assert s[i] in rest;
      }
    }
  }

  predicate SortedBy<T>(s: seq<T>, key: T -> int) {
    forall i, j :: 0 <= i < j < |s| ==> key(s[i]) <= key(s[j])
  }

  /** Places `x` in front of the first element whose key is not smaller. */
  function Insert<T>(x: T, s: seq<T>, key: T -> int): (r: seq<T>)
    ensures |r| == |s| + 1
    ensures multiset(r) == multiset(s) + multiset{x}
  {
    if s == [] || key(x) <= key(s[0]) then [x] + s
    else
      assert s == [s[0]] + s[1..];
      [s[0]] + Insert(x, s[1..], key)
  }

  lemma {:induction false} InsertSorted<T>(x: T, s: seq<T>, key: T -> int)
    requires SortedBy(s, key)
    ensures SortedBy(Insert(x, s, key), key)
  {
    if s != [] && key(x) > key(s[0]) {
      InsertSorted(x, s[1..], key);
      var t := Insert(x, s[1..], key);
      forall i | 0 <= i < |t|
        ensures key(s[0]) <= key(t[i])
      {
        assert t[i] in multiset(t);
        assert t[i] == x || t[i] in multiset(s[1..]);
      }
    }
  }

  /** A stable sort by an integer key (ascending; equal keys keep their order). */
  function SortBy<T>(s: seq<T>, key: T -> int): (r: seq<T>)
    ensures |r| == |s|
    ensures multiset(r) == multiset(s)
  {
    if s == [] then []
    else
      assert s == [s[0]] + s[1..];
      Insert(s[0], SortBy(s[1..], key), key)
  }

  /** Sorting a list already ordered by the key leaves it as it is. */
  lemma {:induction false} SortBySortedInput<T>(s: seq<T>, key: T -> int)
    requires SortedBy(s, key)
    ensures SortBy(s, key) == s
  {
    if s != [] {
      var tail := s[1..];
      assert SortedBy(tail, key) by {
        forall i, j | 0 <= i < j < |tail|
          ensures key(tail[i]) <= key(tail[j])
        {
          assert tail[i] == s[i + 1] && tail[j] == s[j + 1];
        }
      }
      SortBySortedInput(tail, key);
      assert s == [s[0]] + tail;
    }
  }

  /** The result of the sort is ordered by the key. */
  lemma {:induction false} SortBySorted<T>(s: seq<T>, key: T -> int)
    ensures SortedBy(SortBy(s, key), key)
  {
    if s != [] {
      SortBySorted(s[1..], key);
      InsertSorted(s[0], SortBy(s[1..], key), key);
    }
  }

  /** The elements whose key is `v`, in order. */
  function WithKey<T>(key: T -> int, v: int): T -> bool {
    x => key(x) == v
  }

  lemma {:induction false} FilterInsert<T>(x: T, s: seq<T>, key: T -> int, v: int)
    ensures Filter(Insert(x, s, key), WithKey(key, v))
         == (if key(x) == v then [x] else []) + Filter(s, WithKey(key, v))
  {
    var P := WithKey(key, v);
    if s == [] || key(x) <= key(s[0]) {
      assert ([x] + s)[1..] == s;
    } else {
      FilterInsert(x, s[1..], key, v);
      var t := Insert(x, s[1..], key);
      assert ([s[0]] + t)[1..] == t;
    }
  }

  /**
   * Stability: for every key value, the elements with that key appear in the
   * sorted list in the same order as in the input.
   */
  lemma {:induction false} SortStable<T>(s: seq<T>, key: T -> int, v: int)
    ensures Filter(SortBy(s, key), WithKey(key, v)) == Filter(s, WithKey(key, v))
  {
    if s != [] {
      SortStable(s[1..], key, v);
      FilterInsert(s[0], SortBy(s[1..], key), key, v);
    }
  }

  /**
   * The first position of `s` holding a minimal key among the elements
   * satisfying P: the element a stable sort of `s.filter(P)` puts first.
   */
  function FirstMinWhere<T>(s: seq<T>, P: T -> bool, key: T -> int): (k: nat)
    requires exists i :: 0 <= i < |s| && P(s[i])
    ensures k < |s| && P(s[k])
    ensures forall i :: 0 <= i < |s| && P(s[i]) ==> key(s[k]) <= key(s[i])
    ensures forall i :: 0 <= i < k && P(s[i]) ==> key(s[i]) > key(s[k])
  {
    if !P(s[0]) then
      assert exists i :: 0 <= i < |s[1..]| && P(s[1..][i]) by {
        var i :| 0 <= i < |s| && P(s[i]);
        assert s[1..][i - 1] == s[i];
      }
      1 + FirstMinWhere(s[1..], P, key)
    else if forall i :: 1 <= i < |s| ==> !P(s[i]) then 0
    else
      assert exists i :: 0 <= i < |s[1..]| && P(s[1..][i]) by {
        var i :| 1 <= i < |s| && P(s[i]);
        assert s[1..][i - 1] == s[i];
      }
      var k := FirstMinWhere(s[1..], P, key);
      assert s[1..][k] == s[1 + k];
      if key(s[0]) <= key(s[1 + k]) then 0 else 1 + k
  }

  /** Filtering, sorting by a key and taking the first element gives the first minimal element satisfying P. */
  lemma {:induction false} SortedFilterHead<T>(s: seq<T>, P: T -> bool, key: T -> int)
    requires exists i :: 0 <= i < |s| && P(s[i])
    ensures |SortBy(Filter(s, P), key)| > 0
    ensures SortBy(Filter(s, P), key)[0] == s[FirstMinWhere(s, P, key)]
    decreases |s|, 1
  {
    if !P(s[0]) {
      SortedFilterHeadSkip(s, P, key);
    } else if forall i :: 1 <= i < |s| ==> !P(s[i]) {
      assert forall i :: 0 <= i < |s[1..]| ==> !P(s[1..][i]) by {
        assert forall i :: 0 <= i < |s[1..]| ==> s[1..][i] == s[i + 1];
      }
      FilterNone(s[1..], P);
      assert s == [s[0]] + s[1..];
      assert Filter(s, P) == [s[0]];
    } else {
      SortedFilterHeadCons(s, P, key);
    }
  }

  lemma {:induction false} SortedFilterHeadSkip<T>(s: seq<T>, P: T -> bool, key: T -> int)
    requires exists i :: 0 <= i < |s| && P(s[i])
    requires !P(s[0])
    ensures |SortBy(Filter(s, P), key)| > 0
    ensures SortBy(Filter(s, P), key)[0] == s[FirstMinWhere(s, P, key)]
    decreases |s|, 0
  {
    assert exists i :: 0 <= i < |s[1..]| && P(s[1..][i]) by {
      var i :| 0 <= i < |s| && P(s[i]);
      assert s[1..][i - 1] == s[i];
    }
    SortedFilterHead(s[1..], P, key);
    assert Filter(s, P) == Filter(s[1..], P) by {
      assert Filter(s, P) == [] + Filter(s[1..], P);
    }
    var k := FirstMinWhere(s[1..], P, key);
    assert FirstMinWhere(s, P, key) == 1 + k;
    assert s[1..][k] == s[1 + k];
  }

  lemma {:induction false} SortedFilterHeadCons<T>(s: seq<T>, P: T -> bool, key: T -> int)
    requires |s| > 0 && P(s[0])
    requires exists i :: 1 <= i < |s| && P(s[i])
    ensures |SortBy(Filter(s, P), key)| > 0
    ensures SortBy(Filter(s, P), key)[0] == s[FirstMinWhere(s, P, key)]
    decreases |s|, 0
  {
    assert exists i :: 0 <= i < |s[1..]| && P(s[1..][i]) by {
      var i :| 1 <= i < |s| && P(s[i]);
      assert s[1..][i - 1] == s[i];
    }
    SortedFilterHead(s[1..], P, key);
    var t := SortBy(Filter(s[1..], P), key);
    var k := FirstMinWhere(s[1..], P, key);
    assert t != [] && t[0] == s[1 + k];
    assert SortBy(Filter(s, P), key) == Insert(s[0], t, key) by {
      var f := Filter(s, P);
      assert f == [s[0]] + Filter(s[1..], P);
      assert f[1..] == Filter(s[1..], P);
    }
    assert FirstMinWhere(s, P, key) == if key(s[0]) <= key(s[1 + k]) then 0 else 1 + k;
    InsertHead(s[0], t, key);
  }

  lemma InsertHead<T>(x: T, s: seq<T>, key: T -> int)
    requires s != []
    ensures Insert(x, s, key)[0] == if key(x) <= key(s[0]) then x else s[0]
  {
  }

  /** `g` applied to every element. */
  function Map<T, U>(s: seq<T>, g: T -> U): (r: seq<U>)
    ensures |r| == |s|
    ensures forall i :: 0 <= i < |s| ==> r[i] == g(s[i])
  {
    if s == [] then [] else [g(s[0])] + Map(s[1..], g)
  }

  lemma {:induction false} InsertMap<T, U>(x: T, s: seq<T>, g: T -> U, k1: T -> int, k2: U -> int)
    requires forall y :: k2(g(y)) == k1(y)
    ensures Insert(g(x), Map(s, g), k2) == Map(Insert(x, s, k1), g)
  {
    if s != [] && k1(x) > k1(s[0]) {
      InsertMap(x, s[1..], g, k1, k2);
      assert Map(s, g)[1..] == Map(s[1..], g);
    }
  }

  /**
   * Sorting commutes with a map that preserves the key: extending records
   * before or after the stable sort gives the same list.
   */
  lemma {:induction false} SortMap<T, U>(s: seq<T>, g: T -> U, k1: T -> int, k2: U -> int)
    requires forall y :: k2(g(y)) == k1(y)
    ensures SortBy(Map(s, g), k2) == Map(SortBy(s, k1), g)
  {
    if s != [] {
      SortMap(s[1..], g, k1, k2);
      assert Map(s, g)[1..] == Map(s[1..], g);
      InsertMap(s[0], SortBy(s[1..], k1), g, k1, k2);
    }
  }

  predicate Injective<T>(s: seq<T>, f: T -> int) {
    forall i, j :: 0 <= i < j < |s| ==> f(s[i]) != f(s[j])
  }

  lemma {:induction false} InsertInjective<T>(x: T, s: seq<T>, key: T -> int, f: T -> int)
    requires Injective(s, f)
    requires forall i :: 0 <= i < |s| ==> f(s[i]) != f(x)
    ensures Injective(Insert(x, s, key), f)
  {
    if s != [] && key(x) > key(s[0]) {
      InsertInjective(x, s[1..], key, f);
      var t := Insert(x, s[1..], key);
      forall i | 0 <= i < |t|
        ensures f(s[0]) != f(t[i])
      {
        assert t[i] in multiset(t);
        assert t[i] == x || t[i] in s[1..];
      }
    }
  }

  /** A stable sort keeps an identifying field (the pid) unique. */
  lemma {:induction false} SortInjective<T>(s: seq<T>, key: T -> int, f: T -> int)
    requires Injective(s, f)
    ensures Injective(SortBy(s, key), f)
  {
    if s != [] {
      SortInjective(s[1..], key, f);
      var t := SortBy(s[1..], key);
      forall i | 0 <= i < |t|
        ensures f(t[i]) != f(s[0])
      {
        assert t[i] in multiset(t);
        assert t[i] in s[1..];
      }
      InsertInjective(s[0], t, key, f);
    }
  }
}
