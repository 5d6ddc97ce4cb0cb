/** Relevance judgments: the per-query dictionaries from document to score,
    their lookup, and the stable sort by score that the evaluator applies to
    them before ranking. A Python dict keeps insertion order, so a dictionary
    is modelled as the sequence of its items in that order. */
module Judgments {
  import opened Wrappers

  type DocId = string

  /** One item of a relevance dictionary: a document and its score. */
  type Judgment = (DocId, real)

  /** A relevance dictionary, as its items in insertion order. */
  type Judgments = seq<Judgment>

  /** The keys of a dictionary's items are pairwise different. */
  predicate DistinctKeys<V>(s: seq<(string, V)>) {
    forall i, j :: 0 <= i < j < |s| ==> s[i].0 != s[j].0
  }

  /** The set of keys of a dictionary. */
  function KeySet<V>(s: seq<(string, V)>): (r: set<string>)
    ensures forall key :: key in r <==> exists i :: 0 <= i < |s| && s[i].0 == key
  {
    if s == [] then {}
    else
      var rest := KeySet(s[1..]);
      assert forall key :: key in rest <==> exists i :: 0 <= i < |s[1..]| && s[1..][i].0 == key;
      assert forall i :: 1 <= i < |s| ==> s[i] == s[1..][i - 1];
      {s[0].0} + rest
  }

  /** A dictionary has as many keys as items. */
  lemma {:induction false} KeySetSize<V>(s: seq<(string, V)>)
    requires DistinctKeys(s)
    ensures |KeySet(s)| == |s|
  {
    if s != [] {
      KeySetSize(s[1..]);
      assert s[0].0 !in KeySet(s[1..]);
    }
  }

  /** In a dictionary, the items before position `n` have keys other than
      the key at `n`. */
  lemma EarlierKeysDiffer<V>(s: seq<(string, V)>, n: nat)
    requires DistinctKeys(s) && n < |s|
    ensures forall j :: 0 <= j < n ==> s[j].0 != s[n].0
  {
  }

  /** `d[key]` when `key in d`, and None otherwise. */
  function Lookup<V>(s: seq<(string, V)>, key: string): (r: Option<V>)
    ensures r.Some? <==> key in KeySet(s)
    ensures r.Some? ==> (key, r.value) in s
  {
    if s == [] then None
    else if s[0].0 == key then Some(s[0].1)
    else
      var r := Lookup(s[1..], key);
      assert forall i :: 1 <= i < |s| ==> s[i] == s[1..][i - 1];
      r
  }

  /** In a dictionary, the item stored under a key is the only one with it. */
  lemma LookupDistinct<V>(s: seq<(string, V)>, key: string, v: V)
    requires DistinctKeys(s) && (key, v) in s
    ensures Lookup(s, key) == Some(v)
  {
    var i :| 0 <= i < |s| && s[i] == (key, v);
    assert key in KeySet(s);
    var w := Lookup(s, key).value;
    var j :| 0 <= j < |s| && s[j] == (key, w);
    assert i == j;
  }

  /** Two dictionaries that hold the same items give the same lookups. */
  lemma SameItemsSameLookup<V>(a: seq<(string, V)>, b: seq<(string, V)>, key: string)
    requires DistinctKeys(a) && DistinctKeys(b)
    requires forall x :: x in a <==> x in b
    ensures Lookup(a, key) == Lookup(b, key)
  {
    var ra := Lookup(a, key);
    if ra.Some? {
      LookupDistinct(b, key, ra.value);
    } else if Lookup(b, key).Some? {
      LookupDistinct(a, key, Lookup(b, key).value);
    }
  }

  /** Number of items whose score is positive (zero and negative scores mean
      "not relevant"). */
  function CountPositive(s: Judgments): (n: nat)
    ensures n <= |s|
  {
    if s == [] then 0 else (if s[0].1 > 0.0 then 1 else 0) + CountPositive(s[1..])
  }

  /** The documents whose score is positive. */
  function PositiveDocs(s: Judgments): (r: set<DocId>)
    ensures |r| <= CountPositive(s)
    ensures forall d, v :: (d, v) in s && v > 0.0 ==> d in r
  {
    if s == [] then {}
    else
      var rest := PositiveDocs(s[1..]);
      assert forall x :: x in s[1..] ==> x in s;
      assert forall x :: x in s ==> x == s[0] || x in s[1..];
      if s[0].1 > 0.0 then {s[0].0} + rest else rest
  }

  /** `a` comes no later than `b` in the ranking order: by non-increasing score
      when higher is better, by non-decreasing score otherwise. */
  predicate InOrder(a: real, b: real, descending: bool) {
    if descending then a >= b else a <= b
  }

  /** A dictionary whose items are in ranking order. */
  predicate Ordered(s: Judgments, descending: bool) {
    forall i, j :: 0 <= i < j < |s| ==> InOrder(s[i].1, s[j].1, descending)
  }

  /** Inserts `x` into the ordered `s` in front of the first item it may
      precede, so that `x` stays ahead of items with the same score. */
  function Insert(x: Judgment, s: Judgments, descending: bool): (r: Judgments)
    ensures |r| == |s| + 1
    ensures multiset(r) == multiset(s) + multiset{x}
  {
    if s == [] || InOrder(x.1, s[0].1, descending) then
      [x] + s
    else
      assert s == [s[0]] + s[1..];
      [s[0]] + Insert(x, s[1..], descending)
  }

  /** An item that may precede every item of an ordered list may head it. */
  lemma ConsOrdered(x: Judgment, s: Judgments, descending: bool)
    requires Ordered(s, descending)
    requires forall y :: y in s ==> InOrder(x.1, y.1, descending)
    ensures Ordered([x] + s, descending)
  {
    var r := [x] + s;
    forall i, j | 0 <= i < j < |r| ensures InOrder(r[i].1, r[j].1, descending) {
      assert r[j] == s[j - 1];
      if i > 0 {
        assert r[i] == s[i - 1];
      }
    }
  }

  lemma TailOrdered(s: Judgments, descending: bool)
    requires s != [] && Ordered(s, descending)
    ensures Ordered(s[1..], descending)
  {
    var t := s[1..];
    forall i, j | 0 <= i < j < |t| ensures InOrder(t[i].1, t[j].1, descending) {
      assert t[i] == s[i + 1] && t[j] == s[j + 1];
    }
  }

  lemma {:induction false} InsertKeepsOrdered(x: Judgment, s: Judgments, descending: bool)
    requires Ordered(s, descending)
    ensures Ordered(Insert(x, s, descending), descending)
  {
    if s == [] || InOrder(x.1, s[0].1, descending) {
      forall y | y in s ensures InOrder(x.1, y.1, descending) {
        var j :| 0 <= j < |s| && s[j] == y;
        if j > 0 {
          assert InOrder(s[0].1, s[j].1, descending);
        }
      }
      ConsOrdered(x, s, descending);
    } else {
      var tail := s[1..];
      TailOrdered(s, descending);
      InsertKeepsOrdered(x, tail, descending);
      var rest := Insert(x, tail, descending);
      forall y | y in rest ensures InOrder(s[0].1, y.1, descending) {
        assert y in multiset(rest);
        if y != x {
          assert y in multiset(tail);
          var j :| 0 <= j < |tail| && tail[j] == y;
          assert s[j + 1] == y;
        }
      }
      ConsOrdered(s[0], rest, descending);
    }
  }

  /** `sorted(d.items(), key=score, reverse=descending)`: Python's sort is
      stable, also in reverse, so this is a stable insertion sort. */
  function SortByScore(s: Judgments, descending: bool): (r: Judgments)
    ensures |r| == |s|
    ensures multiset(r) == multiset(s)
    ensures Ordered(r, descending)
  {
    if s == [] then []
    else
      assert s == [s[0]] + s[1..];
      var rest := SortByScore(s[1..], descending);
      InsertKeepsOrdered(s[0], rest, descending);
      Insert(s[0], rest, descending)
  }

  /** The subsequence of items whose score is `v`. */
  function WithScore(s: Judgments, v: real): Judgments {
    if s == [] then [] else (if s[0].1 == v then [s[0]] else []) + WithScore(s[1..], v)
  }

  lemma {:induction false} InsertWithScore(x: Judgment, s: Judgments, descending: bool, v: real)
    ensures WithScore(Insert(x, s, descending), v) == (if x.1 == v then [x] else []) + WithScore(s, v)
  {
    if s == [] || InOrder(x.1, s[0].1, descending) {
      assert ([x] + s)[1..] == s;
    } else {
      var rest := Insert(x, s[1..], descending);
      assert ([s[0]] + rest)[1..] == rest;
      InsertWithScore(x, s[1..], descending, v);
      var head := if s[0].1 == v then [s[0]] else [];
      var mid := if x.1 == v then [x] else [];
      assert WithScore([s[0]] + rest, v) == head + (mid + WithScore(s[1..], v));
      assert WithScore(s, v) == head + WithScore(s[1..], v);
      assert x.1 != s[0].1;
      assert head == [] || mid == [];
    }
  }

  /** Stability: for every score, the items with that score keep their
      original relative order. */
  lemma {:induction false} SortIsStable(s: Judgments, descending: bool, v: real)
    ensures WithScore(SortByScore(s, descending), v) == WithScore(s, v)
  {
    if s != [] {
      SortIsStable(s[1..], descending, v);
      InsertWithScore(s[0], SortByScore(s[1..], descending), descending, v);
    }
  }

  lemma {:induction false} InsertCountPositive(x: Judgment, s: Judgments, descending: bool)
    ensures CountPositive(Insert(x, s, descending)) == (if x.1 > 0.0 then 1 else 0) + CountPositive(s)
  {
    if s == [] || InOrder(x.1, s[0].1, descending) {
      assert ([x] + s)[1..] == s;
    } else {
      var rest := Insert(x, s[1..], descending);
      assert ([s[0]] + rest)[1..] == rest;
      InsertCountPositive(x, s[1..], descending);
    }
  }

  /** Sorting does not change the number of positive scores. */
  lemma {:induction false} SortKeepsCountPositive(s: Judgments, descending: bool)
    ensures CountPositive(SortByScore(s, descending)) == CountPositive(s)
  {
    if s != [] {
      SortKeepsCountPositive(s[1..], descending);
      InsertCountPositive(s[0], SortByScore(s[1..], descending), descending);
    }
  }

  /** An item whose key no item of a dictionary has may head it. */
  lemma ConsDistinct(x: Judgment, s: Judgments)
    requires DistinctKeys(s)
    requires forall y :: y in s ==> y.0 != x.0
    ensures DistinctKeys([x] + s)
  {
    var r := [x] + s;
    forall i, j | 0 <= i < j < |r| ensures r[i].0 != r[j].0 {
      assert r[j] == s[j - 1];
      if i > 0 {
        assert r[i] == s[i - 1];
      }
    }
  }

  lemma TailDistinct(s: Judgments)
    requires s != [] && DistinctKeys(s)
    ensures DistinctKeys(s[1..])
    ensures forall y :: y in s[1..] ==> y.0 != s[0].0
  {
    var t := s[1..];
    forall i, j | 0 <= i < j < |t| ensures t[i].0 != t[j].0 {
      assert t[i] == s[i + 1] && t[j] == s[j + 1];
    }
    forall y | y in t ensures y.0 != s[0].0 {
      var j :| 0 <= j < |t| && t[j] == y;
      assert s[j + 1] == y;
    }
  }

  lemma {:induction false} InsertKeepsDistinct(x: Judgment, s: Judgments, descending: bool)
    requires DistinctKeys(s)
    requires forall y :: y in s ==> y.0 != x.0
    ensures DistinctKeys(Insert(x, s, descending))
  {
    if s == [] || InOrder(x.1, s[0].1, descending) {
      ConsDistinct(x, s);
    } else {
      var tail := s[1..];
      TailDistinct(s);
      assert forall y :: y in tail ==> y in s;
      InsertKeepsDistinct(x, tail, descending);
      var rest := Insert(x, tail, descending);
      forall y | y in rest ensures y.0 != s[0].0 {
        assert y in multiset(rest);
        if y != x {
          assert y in multiset(tail);
        }
      }
      ConsDistinct(s[0], rest);
    }
  }

  /** Sorting a dictionary's items gives a dictionary again: the keys stay
      pairwise different. */
  lemma {:induction false} SortKeepsDistinct(s: Judgments, descending: bool)
    requires DistinctKeys(s)
    ensures DistinctKeys(SortByScore(s, descending))
  {
    if s != [] {
      var rest := SortByScore(s[1..], descending);
      SortKeepsDistinct(s[1..], descending);
      forall y | y in rest ensures y.0 != s[0].0 {
        assert y in multiset(rest);
        var i :| 0 <= i < |s[1..]| && s[1..][i] == y;
        assert s[i + 1] == y;
      }
      InsertKeepsDistinct(s[0], rest, descending);
    }
  }

  /** Looking a document up in the sorted dictionary gives what it gives in
      the original one. */
  lemma SortKeepsLookup(s: Judgments, descending: bool, key: DocId)
    requires DistinctKeys(s)
    ensures Lookup(SortByScore(s, descending), key) == Lookup(s, key)
  {
    var r := SortByScore(s, descending);
    SortKeepsDistinct(s, descending);
    forall x ensures x in r <==> x in s {
      assert x in r <==> x in multiset(r);
      assert x in s <==> x in multiset(s);
    }
    SameItemsSameLookup(r, s, key);
  }
}
