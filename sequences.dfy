/**
 * Generic facts about the ways the source groups a list with a dict: the
 * keys of the dict in first-seen order, for each key the ascending positions
 * of the elements that carry it (PositionsMap) or the values derived from
 * them (GroupMap), and a loop that keeps only the results that are present
 * (FilterMap).
 */
module Sequences {
  import opened Wrappers

  /** No element occurs twice. */
  predicate Distinct<T(==)>(s: seq<T>) {
    forall i, j :: 0 <= i < j < |s| ==> s[i] != s[j]
  }

  /** Each element of `s` once, in the order of its first occurrence (the key order of a Python dict filled from `s`). */
  function FirstSeen<T(==)>(s: seq<T>): (r: seq<T>)
    ensures Distinct(r)
    ensures forall k :: 0 <= k < |r| ==> r[k] in s
    ensures forall i :: 0 <= i < |s| ==> s[i] in r
  {
    if s == [] then []
    else
      var p := FirstSeen(s[..|s| - 1]);
      assert s == s[..|s| - 1] + [s[|s| - 1]];
      if s[|s| - 1] in p then p else p + [s[|s| - 1]]
  }

  /** Every position at which `x` occurs in `s`, ascending. */
  function IndicesOf<T(==)>(s: seq<T>, x: T): (r: seq<nat>)
    ensures forall k :: 0 <= k < |r| ==> r[k] < |s| && s[r[k]] == x
    ensures forall i :: 0 <= i < |s| && s[i] == x ==> i in r
    ensures forall k, l :: 0 <= k < l < |r| ==> r[k] < r[l]
  {
    if s == [] then []
    else IndicesOf(s[..|s| - 1], x) + (if s[|s| - 1] == x then [|s| - 1] else [])
  }

  /** The position lists of `keys`, one after the other. */
  function ConcatIndices<T(==)>(s: seq<T>, keys: seq<T>): seq<nat> {
    if keys == [] then []
    else ConcatIndices(s, keys[..|keys| - 1]) + IndicesOf(s, keys[|keys| - 1])
  }

  /** A strictly ascending list has no repeated element. */
  lemma AscendingIsDistinct(r: seq<nat>)
    requires forall k, l :: 0 <= k < l < |r| ==> r[k] < r[l]
    ensures Distinct(r)
  {
  }

  /** The keys seen in a prefix of `s` start the keys of `s`: a dict only ever grows at its end. */
  lemma {:induction false} FirstSeenPrefix<T>(s: seq<T>, q: nat)
    requires q <= |s|
    ensures FirstSeen(s[..q]) <= FirstSeen(s)
    decreases |s| - q
  {
    if q < |s| {
      var n := |s| - 1;
      FirstSeenPrefix(s[..n], q);
      assert s[..n][..q] == s[..q];
    } else {
      assert s[..q] == s;
    }
  }

  /**
   * The keys of FirstSeen(s) appear in first-seen order: the earlier key
   * occurs in `s` before every occurrence of the later key.
   */
  lemma FirstSeenOrder<T>(s: seq<T>, i: nat, j: nat, q: nat)
    requires i < j < |FirstSeen(s)|
    requires q < |s| && s[q] == FirstSeen(s)[j]
    ensures exists p :: 0 <= p < q && s[p] == FirstSeen(s)[i]
  {
    var keys := FirstSeen(s);
    var a := s[..q + 1];
    var seen := FirstSeen(a);
    FirstSeenPrefix(s, q + 1);
    assert a[q] == s[q];
    var t :| 0 <= t < |seen| && seen[t] == s[q];
    assert keys[t] == keys[j];
    assert i < |seen| && seen[i] == keys[i];
    var p :| 0 <= p < |a| && a[p] == keys[i];
    assert p != q;
    assert s[p] == a[p];
  }

  /**
   * Grouping positions under distinct keys: the concatenated position lists
   * hold no position twice, and hold exactly the positions whose element is one of the keys.
   */
  lemma {:induction false} ConcatIndicesPartition<T>(s: seq<T>, keys: seq<T>)
    requires Distinct(keys)
    ensures Distinct(ConcatIndices(s, keys))
    ensures forall i: nat :: i in ConcatIndices(s, keys) <==> i < |s| && s[i] in keys
  {
    if keys != [] {
      var n := |keys| - 1;
      var front := ConcatIndices(s, keys[..n]);
      var last := IndicesOf(s, keys[n]);
      ConcatIndicesPartition(s, keys[..n]);
      AscendingIsDistinct(last);
      assert keys == keys[..n] + [keys[n]];
      forall a, b | 0 <= a < b < |front + last|
        ensures (front + last)[a] != (front + last)[b]
      {
        if a < |front| && b >= |front| {
          var x := front[a];
          assert x in front;
          assert s[x] in keys[..n];
          assert s[last[b - |front|]] == keys[n];
          assert keys[n] !in keys[..n];
        }
      }
    }
  }

  /** When every element of `s` is a key, the grouping covers each position exactly once. */
  lemma GroupsCoverAllPositions<T>(s: seq<T>)
    ensures Distinct(ConcatIndices(s, FirstSeen(s)))
    ensures forall i: nat :: i in ConcatIndices(s, FirstSeen(s)) <==> i < |s|
  {
    var keys := FirstSeen(s);
    ConcatIndicesPartition(s, keys);
    forall i: nat | i < |s| ensures i in ConcatIndices(s, keys) {
      assert s[i] in keys;
    }
  }

  /** A list without repetitions has as many elements as its set. */
  lemma {:induction false} DistinctCardinality<T>(s: seq<T>)
    requires Distinct(s)
    ensures |set x | x in s| == |s|
  {
    if s != [] {
      var n := |s| - 1;
      DistinctCardinality(s[..n]);
      assert s == s[..n] + [s[n]];
      assert (set x | x in s) == (set x | x in s[..n]) + {s[n]};
      assert s[n] !in s[..n];
    }
  }

  /** The number of keys FirstSeen produces is the number of distinct elements. */
  lemma FirstSeenCount<T>(s: seq<T>)
    ensures |FirstSeen(s)| == |set x | x in s|
  {
    var keys := FirstSeen(s);
    DistinctCardinality(keys);
    assert (set x | x in keys) == (set x | x in s);
  }

  /**
   * One step of a loop that fills a dict of lists from `s`: reading `s[i]`
   * adds it as a new key when it is unseen, and appends position `i` to its list.
   */
  lemma GroupStep<T>(s: seq<T>, i: nat)
    requires i < |s|
    ensures FirstSeen(s[..i + 1]) ==
      if s[i] in FirstSeen(s[..i]) then FirstSeen(s[..i]) else FirstSeen(s[..i]) + [s[i]]
    ensures forall x :: IndicesOf(s[..i + 1], x) == IndicesOf(s[..i], x) + (if s[i] == x then [i] else [])
  {
    assert s[..i + 1][..i] == s[..i];
  }

  /** An element that does not occur has no positions. */
  lemma IndicesOfNotIn<T>(s: seq<T>, x: T)
    requires x !in s
    ensures IndicesOf(s, x) == []
  {
  }

  /** The dict of position lists filled by reading `s` in order (a Python dict of lists). */
  function PositionsMap<T(!new)>(s: seq<T>): (m: map<T, seq<nat>>)
    ensures forall x :: x in m <==> x in s
  {
    if s == [] then map[]
    else
      var n := |s| - 1;
      var m := PositionsMap(s[..n]);
      assert s == s[..n] + [s[n]];
      m[s[n] := (if s[n] in m then m[s[n]] else []) + [n]]
  }

  /** Reading `s[i]` into the dict: a new key for an unseen element, and position `i` appended to its list. */
  lemma PositionsMapStep<T(!new)>(s: seq<T>, i: nat)
    requires i < |s|
    ensures var m := PositionsMap(s[..i]);
      && (s[i] in m <==> s[i] in FirstSeen(s[..i]))
      && PositionsMap(s[..i + 1]) == m[s[i] := (if s[i] in m then m[s[i]] else []) + [i]]
  {
    assert s[..i + 1][..i] == s[..i];
  }

  /** One pass of the dict-filling loop, on its key order and its dict together. */
  lemma FillStep<T(!new)>(s: seq<T>, i: nat, order: seq<T>, groups: map<T, seq<nat>>)
    requires i < |s| && order == FirstSeen(s[..i]) && groups == PositionsMap(s[..i])
    ensures (if s[i] in groups then order else order + [s[i]]) == FirstSeen(s[..i + 1])
    ensures groups[s[i] := (if s[i] in groups then groups[s[i]] else []) + [i]] == PositionsMap(s[..i + 1])
  {
    GroupStep(s, i);
    PositionsMapStep(s, i);
  }

  /** Each key of the dict holds exactly the positions of that element. */
  lemma {:induction false} PositionsMapIsIndices<T(!new)>(s: seq<T>)
    ensures forall x :: x in PositionsMap(s) ==> PositionsMap(s)[x] == IndicesOf(s, x)
  {
    if s != [] {
      var n := |s| - 1;
      PositionsMapIsIndices(s[..n]);
      if s[n] !in PositionsMap(s[..n]) {
        IndicesOfNotIn(s[..n], s[n]);
      }
    }
  }

  /** The dict of lists filled by reading `s` in order, appending `val(s[i], i)` under the key `key(s[i])`. */
  function GroupMap<T, K(!new), V>(s: seq<T>, key: T -> K, val: (T, nat) -> V): (m: map<K, seq<V>>)
    ensures forall k :: k in m <==> exists i :: 0 <= i < |s| && key(s[i]) == k
  {
    if s == [] then map[]
    else
      var n := |s| - 1;
      var m := GroupMap(s[..n], key, val);
      var k := key(s[n]);
      assert forall i :: 0 <= i < n ==> s[..n][i] == s[i];
      m[k := (if k in m then m[k] else []) + [val(s[n], n)]]
  }

  /** Reading `s[i]` into the dict: its value appended to the list under its key, which is created when new. */
  lemma GroupMapStep<T, K(!new), V>(s: seq<T>, key: T -> K, val: (T, nat) -> V, i: nat)
    requires i < |s|
    ensures var m, k := GroupMap(s[..i], key, val), key(s[i]);
      GroupMap(s[..i + 1], key, val) == m[k := (if k in m then m[k] else []) + [val(s[i], i)]]
  {
    assert s[..i + 1][..i] == s[..i];
  }

  /** Each key's list holds exactly the values of the elements with that key. */
  lemma {:induction false} GroupMapExactly<T, K(!new), V>(s: seq<T>, key: T -> K, val: (T, nat) -> V, k: K, v: V)
    requires k in GroupMap(s, key, val)
    ensures v in GroupMap(s, key, val)[k] <==> exists i :: 0 <= i < |s| && key(s[i]) == k && val(s[i], i) == v
  {
    var n := |s| - 1;
    var front := s[..n];
    var m := GroupMap(front, key, val);
    assert forall i :: 0 <= i < n ==> front[i] == s[i];
    if k in m {
      GroupMapExactly(front, key, val, k, v);
    }
  }

  /** The present results of `f` on the elements of `s`, in order (a loop that appends only when `f` yields a value). */
  function FilterMap<T, U>(s: seq<T>, f: T -> Option<U>): (r: seq<U>)
    ensures |r| <= |s|
  {
    if s == [] then []
    else
      var n := |s| - 1;
      FilterMap(s[..n], f) + (if f(s[n]).Some? then [f(s[n]).value] else [])
  }

  /** A value is kept exactly when some element yields it. */
  lemma {:induction false} FilterMapExactly<T, U>(s: seq<T>, f: T -> Option<U>, u: U)
    ensures u in FilterMap(s, f) <==> exists x :: x in s && f(x) == Some(u)
  {
    if s != [] {
      var n := |s| - 1;
      FilterMapExactly(s[..n], f, u);
      assert s == s[..n] + [s[n]];
      if exists x :: x in s && f(x) == Some(u) {
        var x :| x in s && f(x) == Some(u);
        if x != s[n] {
          assert x in s[..n];
        }
      }
    }
  }
}
