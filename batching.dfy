/**
 * How the dispatch handler walks through a campaign's contacts: a batch is
 * `contacts.slice(processedCount, processedCount + batchSize)`, the count
 * advances by the batch's length, and the next batch follows while the count
 * is below the number of contacts.
 *
 * `slice` is modelled with JavaScript's rules, including a negative end, which
 * counts back from the end of the array: a batch size that is not positive
 * makes some batch empty, the count stops moving, and every later batch is
 * that same empty slice.
 */
module Batching {
  import opened Util

  /** The length of `slice(start, end)` on an array of `n` elements, for a start that is not negative. */
  function SliceSize(n: nat, start: nat, end: int): (size: nat)
    ensures size <= n && (size > 0 ==> start + size <= n)
    ensures start <= end ==> size == Min(end, n) - Min(start, n)
    ensures end < 0 ==> start + size == n + end || size == 0
  {
    var from := Min(start, n);
    var to := if end < 0 then (if n + end < 0 then 0 else n + end) else Min(end, n);
    if from < to then to - from else 0
  }

  /** `s.slice(start, end)` for a start that is not negative: the SliceSize elements from `start`. */
  function Slice<T>(s: seq<T>, start: nat, end: int): (r: seq<T>)
    ensures |r| == SliceSize(|s|, start, end)
    ensures r != [] ==> start + |r| <= |s| && r == s[start..start + |r|]
  {
    var from := Min(start, |s|);
    var to := if end < 0 then (if |s| + end < 0 then 0 else |s| + end) else Min(end, |s|);
    if from < to then s[from..to] else []
  }

  /**
   * The batches processBatch takes once processedCount is `done`: none when
   * every element is taken; otherwise the next slice, the `taken` elements
   * from `done`, and the batches after it. An empty slice leaves the count
   * where it is, so the dispatch makes no further progress and the list of
   * batches ends there.
   */
  function Batches<T>(s: seq<T>, done: nat, size: int): seq<seq<T>>
    decreases |s| - done
  {
    if done >= |s| then []
    else
      var taken := SliceSize(|s|, done, done + size);
      if taken == 0 then [] else [s[done..done + taken]] + Batches(s, done + taken, size)
  }

  /** The elements of the batches, in order. */
  function Flatten<T>(bs: seq<seq<T>>): seq<T>
  {
    if bs == [] then [] else bs[0] + Flatten(bs[1..])
  }

  /**
   * The value processedCount holds, on `n` elements, when the walk from
   * `done` stops: once every element is taken, or at the first empty slice,
   * where the count stops moving.
   */
  function StopCount(n: nat, done: nat, size: int): (stop: nat)
    ensures done <= n ==> done <= stop <= n
    ensures done >= n ==> stop == done
    decreases n - done
  {
    if done >= n then done
    else
      var taken := SliceSize(n, done, done + size);
      if taken == 0 then done else StopCount(n, done + taken, size)
  }

  /** Each batch is the slice `s.slice(done, done + size)` processBatch takes at that point. */
  lemma BatchIsSlice<T>(s: seq<T>, done: nat, size: int)
    requires done < |s| && SliceSize(|s|, done, done + size) > 0
    ensures Batches(s, done, size)[0] == Slice(s, done, done + size)
  {
  }

  /**
   * The batches from `done` are, together, exactly the elements from `done`
   * up to where the walk stops.
   */
  lemma {:induction false} BatchesReachStop<T>(s: seq<T>, done: nat, size: int)
    requires done <= |s|
    ensures Flatten(Batches(s, done, size)) == s[done..StopCount(|s|, done, size)]
    decreases |s| - done
  {
    var taken := SliceSize(|s|, done, done + size);
    if done < |s| && taken > 0 {
      var next := done + taken;
      var rest := Batches(s, next, size);
      var stop := StopCount(|s|, done, size);
      BatchesReachStop(s, next, size);
      assert StopCount(|s|, next, size) == stop;
      FlattenCons(Batches(s, done, size), s[done..next], rest);
      SplitRange(s, done, next, stop);
    } else {
      assert Batches(s, done, size) == [];
    }
  }

  /** Flattening a batch followed by more batches gives that batch followed by the rest flattened. */
  lemma FlattenCons<T>(bs: seq<seq<T>>, b: seq<T>, rest: seq<seq<T>>)
    requires bs == [b] + rest
    ensures Flatten(bs) == b + Flatten(rest)
  {
    assert bs[1..] == rest;
  }

  /** The elements from `i` to `k` are those from `i` to `j` followed by those from `j` to `k`. */
  lemma SplitRange<T>(s: seq<T>, i: nat, j: nat, k: nat)
    requires i <= j <= k <= |s|
    ensures s[i..k] == s[i..j] + s[j..k]
  {
  }

  /** With a positive batch size the walk takes every element. */
  lemma {:induction false} PositiveSizeReachesEnd(n: nat, done: nat, size: int)
    requires size > 0 && done <= n
    ensures StopCount(n, done, size) == n
    decreases n - done
  {
    if done < n {
      PositiveSizeReachesEnd(n, done + SliceSize(n, done, done + size), size);
    }
  }

  /**
   * With a batch size that is not positive the walk never takes the last
   * element: a zero size makes the first slice empty, and a negative end
   * stops every slice short of the end, so the settlement that follows the
   * last batch never happens.
   */
  lemma {:induction false} NonPositiveSizeStalls(n: nat, done: nat, size: int)
    requires size <= 0 && done < n
    ensures StopCount(n, done, size) < n
    decreases n - done
  {
    var taken := SliceSize(n, done, done + size);
    if taken > 0 && done + taken < n {
      NonPositiveSizeStalls(n, done + taken, size);
    }
  }

  /**
   * With a positive batch size no batch is empty or larger than the batch
   * size, and only the last may be smaller.
   */
  lemma {:induction false} BatchesFull<T>(s: seq<T>, done: nat, size: int)
    requires size > 0 && done <= |s|
    ensures forall i :: 0 <= i < |Batches(s, done, size)| ==> 0 < |Batches(s, done, size)[i]| <= size
    ensures forall i :: 0 <= i < |Batches(s, done, size)| - 1 ==> |Batches(s, done, size)[i]| == size
    decreases |s| - done
  {
    if done < |s| {
      var taken := SliceSize(|s|, done, done + size);
      BatchesFull(s, done + taken, size);
      var rest := Batches(s, done + taken, size);
      assert Batches(s, done, size) == [s[done..done + taken]] + rest;
      if rest != [] {
        assert taken == size;
      }
    }
  }

  /**
   * With a positive batch size the number of batches is the number of
   * remaining elements divided by the batch size, rounded up.
   */
  lemma {:induction false} BatchCount<T>(s: seq<T>, done: nat, size: int)
    requires size > 0 && done <= |s|
    ensures var n := |Batches(s, done, size)|; size * (n - 1) < |s| - done <= size * n
    decreases |s| - done
  {
    var n := |Batches(s, done, size)|;
    if done < |s| {
      var taken := SliceSize(|s|, done, done + size);
      var m := |Batches(s, done + taken, size)|;
      assert n == m + 1;
      BatchCount(s, done + taken, size);
      MulSucc(size, m);
      MulSucc(size, m - 1);
      if done + size >= |s| {
        assert m == 0;
      } else {
        assert taken == size;
      }
    }
  }

  /** a * (m + 1) == a * m + a */
  lemma MulSucc(a: int, m: int)
    ensures a * (m + 1) == a * m + a
  {
  }

}
