/**
 * Capture-mode selection for a USB camera (camera_rtsp_server.py):
 * the tail of get_camera_resolutions, which orders the probed modes by pixel
 * count and keeps the highest frame rate per size, and find_best_resolution,
 * which picks the mode closest to the requested output size.
 */
module Resolutions {
  import opened Wrappers
  import opened Sequences

  /** One capture mode reported by the device: (width, height, maximum frame rate). */
  datatype Mode = Mode(width: int, height: int, fps: real)

  type Size = (int, int)

  function SizeOf(m: Mode): Size {
    (m.width, m.height)
  }

  function Pixels(m: Mode): int {
    m.width * m.height
  }

  function Sizes(s: seq<Mode>): seq<Size> {
    seq(|s|, i requires 0 <= i < |s| => SizeOf(s[i]))
  }

  predicate DistinctSizes(s: seq<Mode>) {
    forall i, j :: 0 <= i < j < |s| ==> SizeOf(s[i]) != SizeOf(s[j])
  }

  // ---------------------------------------------------------------------------
  // Python's list.sort(key=pixels, reverse=...) — a stable sort by pixel count
  // ---------------------------------------------------------------------------

  /** `a` may stand before `b` in a list sorted by pixel count. */
  predicate InOrder(a: Mode, b: Mode, descending: bool) {
    if descending then Pixels(a) >= Pixels(b) else Pixels(a) <= Pixels(b)
  }

  predicate SortedBy(s: seq<Mode>, descending: bool) {
    forall i, j :: 0 <= i < j < |s| ==> InOrder(s[i], s[j], descending)
  }

  /** Puts `x` in front of every element whose key it does not strictly lose to, which keeps equal keys in their original order. */
  function Insert(x: Mode, s: seq<Mode>, descending: bool): (r: seq<Mode>)
    ensures multiset(r) == multiset{x} + multiset(s)
  {
    if s == [] || InOrder(x, s[0], descending) then [x] + s
    else
      assert s == [s[0]] + s[1..];
      [s[0]] + Insert(x, s[1..], descending)
  }

  lemma {:induction false} InsertSorted(x: Mode, s: seq<Mode>, descending: bool)
    requires SortedBy(s, descending)
    ensures SortedBy(Insert(x, s, descending), descending)
  {
    if !(s == [] || InOrder(x, s[0], descending)) {
      var rest := Insert(x, s[1..], descending);
      InsertSorted(x, s[1..], descending);
      forall k | 0 <= k < |rest| ensures InOrder(s[0], rest[k], descending) {
        assert rest[k] in multiset{x} + multiset(s[1..]);
        if rest[k] != x {
          assert rest[k] in s[1..];
        }
      }
      assert Insert(x, s, descending) == [s[0]] + rest;
    }
  }

  /** Stable sort of `s` by pixel count, ascending or descending. */
  function SortByPixels(s: seq<Mode>, descending: bool): (r: seq<Mode>)
    ensures multiset(r) == multiset(s)
    ensures SortedBy(r, descending)
  {
    if s == [] then []
    else
      assert s == [s[0]] + s[1..];
      var sortedTail := SortByPixels(s[1..], descending);
      InsertSorted(s[0], sortedTail, descending);
      Insert(s[0], sortedTail, descending)
  }

  /** Position `k` holds the best key of `s`, and nothing before it has a key as good. */
  predicate IsFirstExtreme(s: seq<Mode>, k: int, descending: bool) {
    && 0 <= k < |s|
    && (forall j :: 0 <= j < |s| ==> InOrder(s[k], s[j], descending))
    && (forall j :: 0 <= j < k ==> !InOrder(s[j], s[k], descending))
  }

  /** The head of an insertion is `x` unless the first element strictly beats it. */
  lemma InsertHead(x: Mode, s: seq<Mode>, descending: bool)
    ensures Insert(x, s, descending)[0] == if s == [] || InOrder(x, s[0], descending) then x else s[0]
  {
  }

  /** The first element is the first extreme of `s` when it is at least as good as the first extreme of the rest. */
  lemma HeadIsFirstExtreme(s: seq<Mode>, k': nat, descending: bool)
    requires |s| > 1 && IsFirstExtreme(s[1..], k', descending) && InOrder(s[0], s[1..][k'], descending)
    ensures IsFirstExtreme(s, 0, descending)
  {
    var tail := s[1..];
    forall j | 1 <= j < |s| ensures InOrder(s[0], s[j], descending) {
      assert s[j] == tail[j - 1];
      assert InOrder(tail[k'], tail[j - 1], descending);
    }
  }

  /** Otherwise the first extreme of the rest, one position further on, is the first extreme of `s`. */
  lemma TailHasFirstExtreme(s: seq<Mode>, k': nat, descending: bool)
    requires |s| > 1 && IsFirstExtreme(s[1..], k', descending) && !InOrder(s[0], s[1..][k'], descending)
    ensures IsFirstExtreme(s, k' + 1, descending)
  {
    var tail := s[1..];
    var k := k' + 1;
    assert s[k] == tail[k'];
    assert InOrder(s[k], s[0], descending);
    forall j | 1 <= j < |s| ensures InOrder(s[k], s[j], descending) {
      assert s[j] == tail[j - 1];
    }
    forall j | 1 <= j < k ensures !InOrder(s[j], s[k], descending) {
      assert s[j] == tail[j - 1];
    }
  }

  /** Stability at the head: the first element of the sorted list is the earliest element with the best key. */
  lemma {:induction false} SortHead(s: seq<Mode>, descending: bool) returns (k: nat)
    requires |s| > 0
    ensures IsFirstExtreme(s, k, descending) && SortByPixels(s, descending)[0] == s[k]
  {
    if |s| == 1 {
      k := 0;
      assert SortByPixels(s, descending) == Insert(s[0], [], descending);
    } else {
      var tail := s[1..];
      var sortedTail := SortByPixels(tail, descending);
      var k' := SortHead(tail, descending);
      InsertHead(s[0], sortedTail, descending);
      assert SortByPixels(s, descending)[0] == Insert(s[0], sortedTail, descending)[0];
      if InOrder(s[0], tail[k'], descending) {
        k := 0;
        HeadIsFirstExtreme(s, k', descending);
      } else {
        k := k' + 1;
        TailHasFirstExtreme(s, k', descending);
      }
    }
  }

  /** Sorting a list whose sizes are pairwise distinct keeps them distinct. */
  lemma {:induction false} InsertKeepsSizesDistinct(x: Mode, s: seq<Mode>, descending: bool)
    requires DistinctSizes(s)
    requires forall i :: 0 <= i < |s| ==> SizeOf(s[i]) != SizeOf(x)
    ensures DistinctSizes(Insert(x, s, descending))
  {
    if !(s == [] || InOrder(x, s[0], descending)) {
      var rest := Insert(x, s[1..], descending);
      InsertKeepsSizesDistinct(x, s[1..], descending);
      assert Insert(x, s, descending) == [s[0]] + rest;
      forall k | 0 <= k < |rest| ensures SizeOf(rest[k]) != SizeOf(s[0]) {
        assert rest[k] in multiset{x} + multiset(s[1..]);
      }
    }
  }

  lemma {:induction false} SortKeepsSizesDistinct(s: seq<Mode>, descending: bool)
    requires DistinctSizes(s)
    ensures DistinctSizes(SortByPixels(s, descending))
  {
    if s != [] {
      var sortedTail := SortByPixels(s[1..], descending);
      SortKeepsSizesDistinct(s[1..], descending);
      forall i | 0 <= i < |sortedTail| ensures SizeOf(sortedTail[i]) != SizeOf(s[0]) {
        assert sortedTail[i] in multiset(s[1..]);
      }
      InsertKeepsSizesDistinct(s[0], sortedTail, descending);
    }
  }

  // ---------------------------------------------------------------------------
  // get_camera_resolutions, lines 239-251
  // ---------------------------------------------------------------------------

  /** The highest frame rate among the modes of `s` that have size `k` (the value the dict keeps for `k`). */
  function MaxFps(s: seq<Mode>, k: Size): (f: real)
    requires k in Sizes(s)
    ensures exists i :: 0 <= i < |s| && SizeOf(s[i]) == k && s[i].fps == f
    ensures forall i :: 0 <= i < |s| && SizeOf(s[i]) == k ==> s[i].fps <= f
  {
    var n := |s| - 1;
    var prefix := s[..n];
    assert Sizes(s) == Sizes(prefix) + [SizeOf(s[n])];
    assert forall i :: 0 <= i < n ==> s[i] == prefix[i] && Sizes(prefix)[i] == SizeOf(s[i]);
    if SizeOf(s[n]) == k && (k !in Sizes(prefix) || s[n].fps > MaxFps(prefix, k)) then s[n].fps
    else MaxFps(prefix, k)
  }

  /** One mode per key, carrying that key's highest frame rate. */
  function Entries(s: seq<Mode>, keys: seq<Size>): (r: seq<Mode>)
    requires forall i :: 0 <= i < |keys| ==> keys[i] in Sizes(s)
  {
    seq(|keys|, i requires 0 <= i < |keys| => Mode(keys[i].0, keys[i].1, MaxFps(s, keys[i])))
  }

  /**
   * What get_camera_resolutions returns for the probed list: sort by pixels
   * (descending), keep the highest frame rate per size in a dict filled in
   * that order, then sort the dict's entries by pixels (descending).
   */
  function Dedup(probed: seq<Mode>): seq<Mode> {
    var sorted := SortByPixels(probed, true);
    var keys := FirstSeen(Sizes(sorted));
    assert forall i :: 0 <= i < |keys| ==> keys[i] in Sizes(sorted);
    SortByPixels(Entries(sorted, keys), true)
  }

  /** How the dict's keys and values change when one more sorted mode is read. */
  lemma DedupStep(s: seq<Mode>, i: nat)
    requires i < |s|
    ensures Sizes(s[..i + 1]) == Sizes(s[..i]) + [SizeOf(s[i])]
    ensures FirstSeen(Sizes(s[..i + 1])) ==
      if SizeOf(s[i]) in FirstSeen(Sizes(s[..i])) then FirstSeen(Sizes(s[..i]))
      else FirstSeen(Sizes(s[..i])) + [SizeOf(s[i])]
    ensures forall k :: k in Sizes(s[..i + 1]) ==>
      MaxFps(s[..i + 1], k) ==
        if SizeOf(s[i]) == k && (k !in Sizes(s[..i]) || s[i].fps > MaxFps(s[..i], k)) then s[i].fps
        else MaxFps(s[..i], k)
  {
    assert s[..i + 1][..i] == s[..i];
    var t := Sizes(s[..i + 1]);
    assert t[..|t| - 1] == Sizes(s[..i]);
  }

  /** The dict-filling loop of get_camera_resolutions: for each size, in first-seen order, the highest frame rate. */
  method KeepMaxFps(resolutions: seq<Mode>) returns (order: seq<Size>, unique: map<Size, real>)
    ensures order == FirstSeen(Sizes(resolutions))
    ensures forall k :: k in unique <==> k in Sizes(resolutions)
    ensures forall k :: k in unique ==> unique[k] == MaxFps(resolutions, k)
  {
    order, unique := [], map[];
    for i := 0 to |resolutions|
      invariant order == FirstSeen(Sizes(resolutions[..i]))
      invariant forall k :: k in unique <==> k in Sizes(resolutions[..i])
      invariant forall k :: k in unique ==> unique[k] == MaxFps(resolutions[..i], k)
    {
      var m := resolutions[i];
      var key := SizeOf(m);
      DedupStep(resolutions, i);
      if key !in unique || m.fps > unique[key] {
        if key !in unique {
          order := order + [key];
        }
        unique := unique[key := m.fps];
      }
    }
    assert resolutions[..|resolutions|] == resolutions;
  }

  method GetCameraResolutions(probed: seq<Mode>) returns (r: seq<Mode>)
    ensures r == Dedup(probed)
  {
    var resolutions := SortByPixels(probed, true);
    var order, unique := KeepMaxFps(resolutions);
    assert forall i :: 0 <= i < |order| ==> order[i] in unique && order[i] in Sizes(resolutions);
    var items := seq(|order|, i requires 0 <= i < |order| => Mode(order[i].0, order[i].1, unique[order[i]]));
    assert items == Entries(resolutions, order);
    r := SortByPixels(items, true);
    assert r == Dedup(probed);
  }

  /** Dedup never reports a size twice. */
  lemma DedupSizesDistinct(probed: seq<Mode>)
    ensures DistinctSizes(Dedup(probed))
  {
    var sorted := SortByPixels(probed, true);
    var keys := FirstSeen(Sizes(sorted));
    assert forall i :: 0 <= i < |keys| ==> keys[i] in Sizes(sorted);
    var entries := Entries(sorted, keys);
    assert forall a :: 0 <= a < |entries| ==> SizeOf(entries[a]) == keys[a];
    SortKeepsSizesDistinct(entries, true);
  }

  /** Sorting keeps exactly the elements it was given. */
  lemma SortKeepsElement(s: seq<Mode>, descending: bool, x: Mode)
    ensures x in SortByPixels(s, descending) <==> x in s
  {
    assert x in SortByPixels(s, descending) <==> x in multiset(SortByPixels(s, descending));
  }

  /** A reported mode is a probed size carrying the highest rate found for that size in the sorted list. */
  lemma DedupEntry(probed: seq<Mode>, m: Mode)
    requires m in Dedup(probed)
    ensures SizeOf(m) in Sizes(SortByPixels(probed, true))
    ensures m.fps == MaxFps(SortByPixels(probed, true), SizeOf(m))
  {
    var sorted := SortByPixels(probed, true);
    var keys := FirstSeen(Sizes(sorted));
    assert forall i :: 0 <= i < |keys| ==> keys[i] in Sizes(sorted);
    var entries := Entries(sorted, keys);
    assert Dedup(probed) == SortByPixels(entries, true);
    SortKeepsElement(entries, true, m);
    var a :| 0 <= a < |entries| && entries[a] == m;
    var k := keys[a];
    assert m == Mode(k.0, k.1, MaxFps(sorted, k));
    assert SizeOf(m) == k;
  }

  /** The highest rate for a size in the sorted list is the highest rate the probe reported for it. */
  lemma SortedMaxFps(probed: seq<Mode>, k: Size)
    requires k in Sizes(SortByPixels(probed, true))
    ensures exists e :: e in probed && SizeOf(e) == k && e.fps == MaxFps(SortByPixels(probed, true), k)
    ensures forall e :: e in probed && SizeOf(e) == k ==> e.fps <= MaxFps(SortByPixels(probed, true), k)
  {
    var sorted := SortByPixels(probed, true);
    var f := MaxFps(sorted, k);
    var i :| 0 <= i < |sorted| && SizeOf(sorted[i]) == k && sorted[i].fps == f;
    SortKeepsElement(probed, true, sorted[i]);
    forall e | e in probed && SizeOf(e) == k ensures e.fps <= f {
      SortKeepsElement(probed, true, e);
      var b :| 0 <= b < |sorted| && sorted[b] == e;
    }
  }

  /** Each reported size carries a frame rate that the probe reported for it, and no probed rate for that size is higher. */
  lemma DedupKeepsMaxFps(probed: seq<Mode>, m: Mode)
    requires m in Dedup(probed)
    ensures exists e :: e in probed && SizeOf(e) == SizeOf(m) && e.fps == m.fps
    ensures forall e :: e in probed && SizeOf(e) == SizeOf(m) ==> e.fps <= m.fps
  {
    DedupEntry(probed, m);
    SortedMaxFps(probed, SizeOf(m));
  }

  /** Every probed size is reported; with DedupKeepsMaxFps, Dedup holds exactly the probed sizes. */
  lemma DedupKeepsSizes(probed: seq<Mode>, e: Mode)
    requires e in probed
    ensures exists m :: m in Dedup(probed) && SizeOf(m) == SizeOf(e)
  {
    var sorted := SortByPixels(probed, true);
    var keys := FirstSeen(Sizes(sorted));
    assert forall i :: 0 <= i < |keys| ==> keys[i] in Sizes(sorted);
    var entries := Entries(sorted, keys);
    SortKeepsElement(probed, true, e);
    var b :| 0 <= b < |sorted| && sorted[b] == e;
    assert Sizes(sorted)[b] == SizeOf(e);
    var a :| 0 <= a < |keys| && keys[a] == SizeOf(e);
    assert SizeOf(entries[a]) == SizeOf(e);
    SortKeepsElement(entries, true, entries[a]);
  }

  /** Dedup lists the sizes from most to fewest pixels. */
  lemma DedupOrdered(probed: seq<Mode>, i: nat, j: nat)
    requires i < j < |Dedup(probed)|
    ensures Pixels(Dedup(probed)[i]) >= Pixels(Dedup(probed)[j])
  {
  }

  // ---------------------------------------------------------------------------
  // find_best_resolution, lines 275-314
  // ---------------------------------------------------------------------------

  /** The three list-comprehension and append filters of find_best_resolution. */
  datatype Criterion = FpsAtLeast(minFps: real) | PixelsAtLeast(atLeast: int) | PixelsBelow(below: int)

  predicate Meets(m: Mode, c: Criterion) {
    match c
    case FpsAtLeast(f) => m.fps >= f
    case PixelsAtLeast(p) => Pixels(m) >= p
    case PixelsBelow(p) => Pixels(m) < p
  }

  /** The elements of `s` that meet `c`, in their original order. */
  function Filter(s: seq<Mode>, c: Criterion): (r: seq<Mode>)
    ensures forall k :: 0 <= k < |r| ==> r[k] in s && Meets(r[k], c)
    ensures forall i :: 0 <= i < |s| && Meets(s[i], c) ==> s[i] in r
  {
    if s == [] then []
    else
      var n := |s| - 1;
      assert s == s[..n] + [s[n]];
      Filter(s[..n], c) + (if Meets(s[n], c) then [s[n]] else [])
  }

  /** The filter keeps list order and repeats: it distributes over concatenation. */
  lemma {:induction false} FilterKeepsOrder(a: seq<Mode>, b: seq<Mode>, c: Criterion)
    ensures Filter(a + b, c) == Filter(a, c) + Filter(b, c)
    decreases |b|
  {
    if b != [] {
      var n := |b| - 1;
      assert (a + b)[..|a + b| - 1] == a + b[..n];
      FilterKeepsOrder(a, b[..n], c);
    } else {
      assert a + b == a;
    }
  }

  /** The candidates find_best_resolution works on: those fast enough, or all of them when none is. */
  function WorkingSet(resolutions: seq<Mode>, targetFps: real): (r: seq<Mode>)
    ensures |r| == 0 <==> |resolutions| == 0
    ensures forall k :: 0 <= k < |r| ==> r[k] in resolutions
    ensures forall i :: 0 <= i < |resolutions| && resolutions[i].fps >= targetFps ==> resolutions[i] in r
    ensures (exists i :: 0 <= i < |resolutions| && resolutions[i].fps >= targetFps) ==>
      forall k :: 0 <= k < |r| ==> r[k].fps >= targetFps
    ensures (exists i :: 0 <= i < |resolutions| && resolutions[i].fps >= targetFps) ==>
      r == Filter(resolutions, FpsAtLeast(targetFps))
    ensures (forall i :: 0 <= i < |resolutions| ==> resolutions[i].fps < targetFps) ==> r == resolutions
  {
    var valid := Filter(resolutions, FpsAtLeast(targetFps));
    assert |valid| > 0 ==> valid[0] in resolutions && valid[0].fps >= targetFps;
    if |valid| == 0 then resolutions else valid
  }

  /**
   * find_best_resolution on the list get_camera_resolutions returned: None
   * for an empty list, else the closest fit among the working candidates.
   */
  function BestResolution(resolutions: seq<Mode>, targetWidth: int, targetHeight: int, targetFps: real): (r: Option<Mode>)
    ensures r.None? <==> |resolutions| == 0
  {
    if |resolutions| == 0 then None
    else Closest(WorkingSet(resolutions, targetFps), targetWidth * targetHeight)
  }

  /**
   * The pick among the working candidates: the smallest with at least the
   * target pixel count, else the largest one below it; stable sorts break
   * ties by list order. The source's last fallback (`valid_resolutions[0]`)
   * cannot be reached, which the `assert false` below proves.
   */
  function Closest(valid: seq<Mode>, targetPixels: int): (r: Option<Mode>)
    requires |valid| > 0
    ensures r.Some?
  {
    var largerOrEqual := Filter(valid, PixelsAtLeast(targetPixels));
    var smaller := Filter(valid, PixelsBelow(targetPixels));
    SplitCoversAll(valid, targetPixels);
    if |largerOrEqual| > 0 then Some(SortByPixels(largerOrEqual, false)[0])
    else if |smaller| > 0 then Some(SortByPixels(smaller, true)[0])
    else assert false; None
  }

  /** The append loop of find_best_resolution: candidates at or above the target pixel count, and those below it. */
  method SplitByTarget(valid: seq<Mode>, targetPixels: int) returns (largerOrEqual: seq<Mode>, smaller: seq<Mode>)
    ensures largerOrEqual == Filter(valid, PixelsAtLeast(targetPixels))
    ensures smaller == Filter(valid, PixelsBelow(targetPixels))
  {
    largerOrEqual, smaller := [], [];
    for i := 0 to |valid|
      invariant largerOrEqual == Filter(valid[..i], PixelsAtLeast(targetPixels))
      invariant smaller == Filter(valid[..i], PixelsBelow(targetPixels))
    {
      var m := valid[i];
      assert valid[..i + 1][..i] == valid[..i];
      if Pixels(m) >= targetPixels {
        largerOrEqual := largerOrEqual + [m];
      } else {
        smaller := smaller + [m];
      }
    }
    assert valid[..|valid|] == valid;
  }

  /** The two groups split the working set: together they are exactly as long as it. */
  lemma {:induction false} SplitCoversAll(valid: seq<Mode>, targetPixels: int)
    ensures |Filter(valid, PixelsAtLeast(targetPixels))| + |Filter(valid, PixelsBelow(targetPixels))| == |valid|
  {
    if valid != [] {
      SplitCoversAll(valid[..|valid| - 1], targetPixels);
    }
  }

  method FindBestResolution(resolutions: seq<Mode>, targetWidth: int, targetHeight: int, targetFps: real)
    returns (best: Option<Mode>)
    ensures best == BestResolution(resolutions, targetWidth, targetHeight, targetFps)
  {
    if |resolutions| == 0 {
      return None;
    }
    var targetPixels := targetWidth * targetHeight;
    var valid := Filter(resolutions, FpsAtLeast(targetFps));
    if |valid| == 0 {
      valid := resolutions;
    }
    best := PickClosest(valid, targetPixels);
  }

  /** The tail of find_best_resolution, from the append loop on. */
  method PickClosest(valid: seq<Mode>, targetPixels: int) returns (best: Option<Mode>)
    requires |valid| > 0
    ensures best == Closest(valid, targetPixels)
  {
    var largerOrEqual, smaller := SplitByTarget(valid, targetPixels);
    SplitCoversAll(valid, targetPixels);
    if |largerOrEqual| > 0 {
      largerOrEqual := SortByPixels(largerOrEqual, false);
      best := Some(largerOrEqual[0]);
    } else if |smaller| > 0 {
      smaller := SortByPixels(smaller, true);
      best := Some(smaller[0]);
    } else {
      assert false;
      best := None;
    }
  }

  /** Carries "earliest element with the best key" from a filtered list back to the list it was filtered from. */
  lemma {:induction false} FilterFirstExtreme(w: seq<Mode>, c: Criterion, kf: nat, descending: bool) returns (k: nat)
    requires IsFirstExtreme(Filter(w, c), kf, descending)
    ensures k < |w| && w[k] == Filter(w, c)[kf] && Meets(w[k], c)
    ensures forall j :: 0 <= j < |w| && Meets(w[j], c) ==> InOrder(w[k], w[j], descending)
    ensures forall j :: 0 <= j < k && Meets(w[j], c) ==> !InOrder(w[j], w[k], descending)
  {
    var n := |w| - 1;
    var w' := w[..n];
    var f' := Filter(w', c);
    var f := Filter(w, c);
    assert f == f' + (if Meets(w[n], c) then [w[n]] else []);
    if kf < |f'| {
      assert forall j :: 0 <= j < |f'| ==> f[j] == f'[j];
      assert IsFirstExtreme(f', kf, descending);
      k := FilterFirstExtreme(w', c, kf, descending);
      forall j | 0 <= j < |w| && Meets(w[j], c) ensures InOrder(w[k], w[j], descending) {
        if j == n {
          assert w[n] == f[|f'|];
        } else {
          assert w[j] == w'[j];
        }
      }
      forall j | 0 <= j < k && Meets(w[j], c) ensures !InOrder(w[j], w[k], descending) {
        assert w[j] == w'[j];
      }
    } else {
      k := n;
      forall j | 0 <= j < n && Meets(w[j], c)
        ensures InOrder(w[n], w[j], descending) && !InOrder(w[j], w[n], descending)
      {
        assert w'[j] == w[j];
        var idx :| 0 <= idx < |f'| && f'[idx] == w[j];
        assert f[idx] == w[j];
      }
    }
  }

  /**
   * Position `k` of working set `w` is the closest fit to `targetPixels`: when
   * some candidate reaches the target, `w[k]` reaches it with the fewest
   * pixels and no earlier candidate that reaches it has as few; otherwise
   * `w[k]` has the most pixels and no earlier candidate has as many.
   */
  predicate ClosestFitAt(w: seq<Mode>, targetPixels: int, k: int) {
    && 0 <= k < |w|
    && if exists j :: 0 <= j < |w| && Pixels(w[j]) >= targetPixels then
         && Pixels(w[k]) >= targetPixels
         && (forall j :: 0 <= j < |w| && Pixels(w[j]) >= targetPixels ==> Pixels(w[k]) <= Pixels(w[j]))
         && (forall j :: 0 <= j < k && Pixels(w[j]) >= targetPixels ==> Pixels(w[j]) > Pixels(w[k]))
       else
         && (forall j :: 0 <= j < |w| ==> Pixels(w[j]) <= Pixels(w[k]))
         && (forall j :: 0 <= j < k ==> Pixels(w[j]) < Pixels(w[k]))
  }

  /** The case where some candidate reaches the target: the head of the ascending sort of those candidates. */
  lemma ClosestFitAbove(w: seq<Mode>, targetPixels: int, j: nat) returns (k: nat)
    requires j < |w| && Pixels(w[j]) >= targetPixels
    ensures ClosestFitAt(w, targetPixels, k)
    ensures SortByPixels(Filter(w, PixelsAtLeast(targetPixels)), false)[0] == w[k]
  {
    var largerOrEqual := Filter(w, PixelsAtLeast(targetPixels));
    assert Meets(w[j], PixelsAtLeast(targetPixels));
    assert w[j] in largerOrEqual;
    var kf := SortHead(largerOrEqual, false);
    k := FilterFirstExtreme(w, PixelsAtLeast(targetPixels), kf, false);
  }

  /** The case where no candidate reaches the target: the head of the descending sort of all of them. */
  lemma ClosestFitBelow(w: seq<Mode>, targetPixels: int) returns (k: nat)
    requires |w| > 0
    requires forall j :: 0 <= j < |w| ==> Pixels(w[j]) < targetPixels
    ensures ClosestFitAt(w, targetPixels, k)
    ensures SortByPixels(Filter(w, PixelsBelow(targetPixels)), true)[0] == w[k]
  {
    var smaller := Filter(w, PixelsBelow(targetPixels));
    assert Meets(w[0], PixelsBelow(targetPixels));
    assert w[0] in smaller;
    var kf := SortHead(smaller, true);
    k := FilterFirstExtreme(w, PixelsBelow(targetPixels), kf, true);
    assert forall j :: 0 <= j < |w| ==> Meets(w[j], PixelsBelow(targetPixels));
  }

  /** The pick is the closest fit of the candidates, ties going to the earliest. */
  lemma ClosestIsClosestFit(w: seq<Mode>, targetPixels: int) returns (k: nat)
    requires |w| > 0
    ensures ClosestFitAt(w, targetPixels, k) && Closest(w, targetPixels) == Some(w[k])
  {
    if j :| 0 <= j < |w| && Pixels(w[j]) >= targetPixels {
      assert Meets(w[j], PixelsAtLeast(targetPixels));
      assert |Filter(w, PixelsAtLeast(targetPixels))| > 0;
      k := ClosestFitAbove(w, targetPixels, j);
    } else {
      k := ClosestFitBelow(w, targetPixels);
      assert |Filter(w, PixelsBelow(targetPixels))| > 0;
    }
  }

  /** The matcher picks the closest fit of the working set, ties going to the earliest candidate. */
  lemma BestResolutionIsClosestFit(resolutions: seq<Mode>, targetWidth: int, targetHeight: int, targetFps: real)
    returns (k: nat)
    requires |resolutions| > 0
    ensures ClosestFitAt(WorkingSet(resolutions, targetFps), targetWidth * targetHeight, k)
    ensures BestResolution(resolutions, targetWidth, targetHeight, targetFps) == Some(WorkingSet(resolutions, targetFps)[k])
  {
    k := ClosestIsClosestFit(WorkingSet(resolutions, targetFps), targetWidth * targetHeight);
  }

  /** At most one position is the closest fit, so the choice is determined by the list and the target. */
  lemma ClosestFitUnique(w: seq<Mode>, targetPixels: int, k1: int, k2: int)
    requires ClosestFitAt(w, targetPixels, k1) && ClosestFitAt(w, targetPixels, k2)
    ensures k1 == k2
  {
  }

  /** The matcher returns one of the listed candidates, and a fast enough one whenever one exists. */
  lemma BestResolutionCandidate(resolutions: seq<Mode>, targetWidth: int, targetHeight: int, targetFps: real)
    requires |resolutions| > 0
    ensures BestResolution(resolutions, targetWidth, targetHeight, targetFps).value in resolutions
    ensures (exists i :: 0 <= i < |resolutions| && resolutions[i].fps >= targetFps) ==>
      BestResolution(resolutions, targetWidth, targetHeight, targetFps).value.fps >= targetFps
  {
    var k := BestResolutionIsClosestFit(resolutions, targetWidth, targetHeight, targetFps);
    var w := WorkingSet(resolutions, targetFps);
    var valid := Filter(resolutions, FpsAtLeast(targetFps));
    assert w[k] in resolutions by {
      if |valid| > 0 {
        assert w[k] == valid[k];
      }
    }
    if exists i :: 0 <= i < |resolutions| && resolutions[i].fps >= targetFps {
      var i :| 0 <= i < |resolutions| && resolutions[i].fps >= targetFps;
      assert Meets(resolutions[i], FpsAtLeast(targetFps));
      assert resolutions[i] in valid;
      assert w == valid;
      assert Meets(valid[k], FpsAtLeast(targetFps));
    }
  }

  /** The three modes of the worked example below, all fast enough for 25 fps. */
  const ExampleModes := [Mode(1280, 720, 30.0), Mode(1920, 1080, 30.0), Mode(640, 480, 60.0)]

  lemma ExampleAllFastEnough()
    ensures WorkingSet(ExampleModes, 25.0) == ExampleModes
  {
    var r := ExampleModes;
    var c := FpsAtLeast(25.0);
    assert r[..2][..1] == [r[0]];
    assert Filter([r[0]], c) == [r[0]];
    assert r[..2] == r[..2][..1] + [r[1]];
    assert Filter(r[..2], c) == r[..2];
    assert r == r[..2] + [r[2]];
    assert Filter(r, c) == r;
  }

  lemma ExampleClosestFit()
    ensures ClosestFitAt(ExampleModes, 700000, 0)
  {
    var r := ExampleModes;
    assert Pixels(r[0]) == 1280 * 720 == 921600;
    assert Pixels(r[1]) == 1920 * 1080 == 2073600;
    assert Pixels(r[2]) == 640 * 480 == 307200;
  }

  /** A worked example: the smallest candidate that reaches the target wins. */
  lemma MatcherPrefersSmallestAbove()
    ensures BestResolution(ExampleModes, 1000, 700, 25.0) == Some(Mode(1280, 720, 30.0))
  {
    ExampleAllFastEnough();
    var k := BestResolutionIsClosestFit(ExampleModes, 1000, 700, 25.0);
    ExampleClosestFit();
    ClosestFitUnique(ExampleModes, 700000, k, 0);
  }

  /** A worked example: with nothing large enough, the largest smaller candidate wins. */
  lemma MatcherFallsBackBelow()
    ensures BestResolution([Mode(640, 480, 30.0)], 1920, 1080, 30.0) == Some(Mode(640, 480, 30.0))
  {
  }
}
