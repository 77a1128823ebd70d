/**
 * The rankings of the tournament: `sorted(d.items(), key=lambda kv: kv[1], reverse=True)`
 * over a dictionary keyed by agent name, whose keys are in first-insertion order.
 */
module Ranking {

  /** One `(name, value)` item of a dictionary. */
  type Item = (string, real)

  /** The distinct names in order of first occurrence: the key order of a dict filled in agent order. */
  function Dedup(names: seq<string>): (r: seq<string>)
    ensures forall n :: n in r <==> n in names
    ensures forall a, b :: 0 <= a < b < |r| ==> r[a] != r[b]
  {
    if names == [] then []
    else
      var prev := Dedup(names[..|names| - 1]);
      var last := names[|names| - 1];
      assert forall n :: n in names <==> n in names[..|names| - 1] || n == last by {
        assert names == names[..|names| - 1] + [last];
      }
      if last in prev then prev else prev + [last]
  }

  /** A list of distinct names is its own key order. */
  lemma {:induction false} DedupDistinct(names: seq<string>)
    requires forall a, b :: 0 <= a < b < |names| ==> names[a] != names[b]
    ensures Dedup(names) == names
  {
    if names != [] {
      var prefix := names[..|names| - 1];
      DedupDistinct(prefix);
      assert names[|names| - 1] !in prefix;
      assert names == prefix + [names[|names| - 1]];
    }
  }

  /** `d.items()` for a dictionary `m` whose keys, in order, are `keys`. */
  function Items(keys: seq<string>, m: map<string, real>): (r: seq<Item>)
    requires forall k :: k in keys ==> k in m
    ensures |r| == |keys|
    ensures forall a :: 0 <= a < |r| ==> r[a].0 == keys[a] && r[a].1 == m[keys[a]]
  {
    seq(|keys|, a requires 0 <= a < |keys| => (keys[a], m[keys[a]]))
  }

  /** Non-increasing by value. */
  ghost predicate Descending(s: seq<Item>) {
    forall a, b :: 0 <= a < b < |s| ==> s[a].1 >= s[b].1
  }

  /** Insert `x` after every leading item whose value is at least its own. */
  function Insert(x: Item, s: seq<Item>): (r: seq<Item>)
    ensures multiset(r) == multiset(s) + multiset{x}
  {
    if s == [] then [x]
    else if s[0].1 >= x.1 then
      assert s == [s[0]] + s[1..];
      [s[0]] + Insert(x, s[1..])
    else [x] + s
  }

  /** Inserting keeps every value at most `v` when `x` and the list keep it. */
  lemma {:induction false} InsertBound(x: Item, s: seq<Item>, v: real)
    requires x.1 <= v && forall k :: 0 <= k < |s| ==> s[k].1 <= v
    ensures forall k :: 0 <= k < |Insert(x, s)| ==> Insert(x, s)[k].1 <= v
  {
    if s != [] && s[0].1 >= x.1 {
      var tail := s[1..];
      assert forall k :: 0 <= k < |tail| ==> tail[k] == s[k + 1];
      InsertBound(x, tail, v);
      var rest := Insert(x, tail);
      var r := [s[0]] + rest;
      assert r == Insert(x, s);
      forall k | 0 < k < |r|
        ensures r[k].1 <= v
      {
        assert r[k] == rest[k - 1];
      }
    } else {
      var r := [x] + s;
      assert r == Insert(x, s);
      assert forall k :: 0 < k < |r| ==> r[k] == s[k - 1];
    }
  }

  /** Putting an item no smaller than any in a non-increasing list in front keeps it non-increasing. */
  lemma DescendingCons(h: Item, r: seq<Item>)
    requires Descending(r) && forall k :: 0 <= k < |r| ==> r[k].1 <= h.1
    ensures Descending([h] + r)
  {
    var l := [h] + r;
    forall a, b | 0 <= a < b < |l|
      ensures l[a].1 >= l[b].1
    {
      assert l[b] == r[b - 1];
      if a > 0 {
        assert l[a] == r[a - 1];
      }
    }
  }

  /** The tail of a non-increasing list is non-increasing and bounded by its head. */
  lemma DescendingTail(s: seq<Item>)
    requires Descending(s) && s != []
    ensures Descending(s[1..]) && forall k :: 0 <= k < |s[1..]| ==> s[1..][k].1 <= s[0].1
  {
    var t := s[1..];
    assert forall k :: 0 <= k < |t| ==> t[k] == s[k + 1];
  }

  /** Inserting into a non-increasing list gives a non-increasing list. */
  lemma {:induction false} InsertDescending(x: Item, s: seq<Item>)
    requires Descending(s)
    ensures Descending(Insert(x, s))
  {
    if s == [] {
      assert Insert(x, s) == [x];
    } else if s[0].1 >= x.1 {
      var tail := s[1..];
      DescendingTail(s);
      InsertDescending(x, tail);
      InsertBound(x, tail, s[0].1);
      DescendingCons(s[0], Insert(x, tail));
    } else {
      assert forall k :: 0 <= k < |s| ==> s[k].1 <= s[0].1;
      DescendingCons(x, s);
    }
  }

  /**
   * `sorted(items, key=value, reverse=True)`: the items in non-increasing order of value,
   * each exactly as often as in the input.
   */
  function SortDescending(s: seq<Item>): (r: seq<Item>)
    ensures Descending(r)
    ensures multiset(r) == multiset(s)
  {
    if s == [] then []
    else
      assert s == s[..|s| - 1] + [s[|s| - 1]];
      var sorted := SortDescending(s[..|s| - 1]);
      InsertDescending(s[|s| - 1], sorted);
      Insert(s[|s| - 1], sorted)
  }

  /** An item no larger than everything in a list goes to its end. */
  lemma {:induction false} InsertSmallest(x: Item, s: seq<Item>)
    requires forall k :: 0 <= k < |s| ==> s[k].1 >= x.1
    ensures Insert(x, s) == s + [x]
  {
    if s != [] {
      var tail := s[1..];
      assert forall k :: 0 <= k < |tail| ==> tail[k] == s[k + 1];
      InsertSmallest(x, tail);
      assert s + [x] == [s[0]] + (tail + [x]);
    }
  }

  /** Sorting keeps an already non-increasing list as it is, so it is idempotent. */
  lemma {:induction false} SortDescendingKeepsSorted(s: seq<Item>)
    requires Descending(s)
    ensures SortDescending(s) == s
  {
    if s != [] {
      var prefix, last := s[..|s| - 1], s[|s| - 1];
      assert forall k :: 0 <= k < |prefix| ==> prefix[k] == s[k];
      SortDescendingKeepsSorted(prefix);
      InsertSmallest(last, prefix);
      SplitLast(s);
    }
  }

  /** A non-empty list is its prefix followed by its last item. */
  lemma SplitLast(s: seq<Item>)
    requires s != []
    ensures s[..|s| - 1] + [s[|s| - 1]] == s
  {
  }

  /** The ranking of a dictionary lists every key exactly once, with its value, and nothing else. */
  lemma RankingOfMap(keys: seq<string>, m: map<string, real>, n: string)
    requires forall k :: k in keys ==> k in m
    requires forall a, b :: 0 <= a < b < |keys| ==> keys[a] != keys[b]
    ensures n in keys ==> multiset(SortDescending(Items(keys, m)))[(n, m[n])] == 1
    ensures forall v :: (n in keys ==> v != m[n]) ==> multiset(SortDescending(Items(keys, m)))[(n, v)] == 0
  {
    var items := Items(keys, m);
    ItemsCount(keys, m, n);
  }

  /** Each key of a list of distinct keys gives exactly one item. */
  lemma {:induction false} ItemsCount(keys: seq<string>, m: map<string, real>, n: string)
    requires forall k :: k in keys ==> k in m
    requires forall a, b :: 0 <= a < b < |keys| ==> keys[a] != keys[b]
    ensures n in keys ==> multiset(Items(keys, m))[(n, m[n])] == 1
    ensures forall v :: (n in keys ==> v != m[n]) ==> multiset(Items(keys, m))[(n, v)] == 0
  {
    if keys != [] {
      var prefix := keys[..|keys| - 1];
      ItemsCount(prefix, m, n);
      assert Items(keys, m) == Items(prefix, m) + [(keys[|keys| - 1], m[keys[|keys| - 1]])];
      assert keys == prefix + [keys[|keys| - 1]];
      assert keys[|keys| - 1] !in prefix;
    }
  }
}
