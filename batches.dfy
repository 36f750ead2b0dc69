/** `splitArrayIntoBatches` (src/utils.ts, dist/utils.js): a `reduce` over
    the input whose accumulator is a list of batches. Each step pops the last
    batch (an empty one when there is none), appends the item to it while it
    holds fewer than `batchSize` items, and otherwise pushes it back together
    with a new batch holding just the item. */
module Batches {

  /** One step of the `reduce` callback: `result.pop() || []`, then either
      `batch.push(item); result.push(batch)` or `result.push(batch, [item])`. */
  function Step<T>(result: seq<seq<T>>, item: T, batchSize: int): seq<seq<T>> {
    var batch := if |result| == 0 then [] else result[|result| - 1];
    var rest := if |result| == 0 then [] else result[..|result| - 1];
    if |batch| < batchSize then rest + [batch + [item]] else rest + [batch, [item]]
  }

  /** The value of `arr.reduce(step, [])`: the steps applied left to right. */
  function Reduce<T>(arr: seq<T>, batchSize: int): seq<seq<T>> {
    if |arr| == 0 then [] else Step(Reduce(arr[..|arr| - 1], batchSize), arr[|arr| - 1], batchSize)
  }

  /** The batches joined back together in order. */
  function Flatten<T>(batches: seq<seq<T>>): seq<T> {
    if |batches| == 0 then [] else Flatten(batches[..|batches| - 1]) + batches[|batches| - 1]
  }

  /** Every batch holds between 1 and `batchSize` items, and every batch but
      the last exactly `batchSize`. */
  predicate FullBatches<T>(batches: seq<seq<T>>, batchSize: int) {
    && (forall i :: 0 <= i < |batches| ==> 1 <= |batches[i]| <= batchSize)
    && (forall i :: 0 <= i < |batches| - 1 ==> |batches[i]| == batchSize)
  }

  /** `[item]` for every item, in order. */
  function Singletons<T>(arr: seq<T>): (r: seq<seq<T>>)
    ensures |r| == |arr| && forall i :: 0 <= i < |arr| ==> r[i] == [arr[i]]
  {
    seq(|arr|, i requires 0 <= i < |arr| => [arr[i]])
  }

  /** `splitArrayIntoBatches(arr, batchSize)`. */
  method SplitArrayIntoBatches<T>(arr: seq<T>, batchSize: int) returns (result: seq<seq<T>>)
    ensures result == Reduce(arr, batchSize)
  {
    result := [];
    var i := 0;
    while i < |arr|
      invariant 0 <= i <= |arr|
      invariant result == Reduce(arr[..i], batchSize)
    {
      var batch: seq<T> := [];
      if |result| > 0 {
        batch := result[|result| - 1];
        result := result[..|result| - 1];
      }
      if |batch| < batchSize {
        batch := batch + [arr[i]];
        result := result + [batch];
      } else {
        result := result + [batch, [arr[i]]];
      }
      assert arr[..i + 1][..i] == arr[..i];
      i := i + 1;
    }
    assert arr[..i] == arr;
  }

  /** One step appends exactly the item to the joined batches, whatever the batch size. */
  lemma {:induction false} StepAppendsItem<T>(result: seq<seq<T>>, item: T, batchSize: int)
    ensures Flatten(Step(result, item, batchSize)) == Flatten(result) + [item]
  {
    var bs := Step(result, item, batchSize);
    if |result| == 0 {
      assert Flatten(bs) == Flatten(bs[..|bs| - 1]) + bs[|bs| - 1];
      if 0 < batchSize {
        assert bs[..|bs| - 1] == [];
      } else {
        var empty: seq<seq<T>> := [[]];
        assert bs[..|bs| - 1] == empty;
        assert Flatten(empty) == Flatten(empty[..0]) + [];
      }
    } else {
      var rest, last := result[..|result| - 1], result[|result| - 1];
      assert Flatten(result) == Flatten(rest) + last;
      if |last| < batchSize {
        assert bs[..|bs| - 1] == rest;
      } else {
        assert bs[..|bs| - 1] == result;
      }
    }
  }

  /** With `batchSize >= 1` one step keeps the batches full and non-empty. */
  lemma {:induction false} StepKeepsBatchesFull<T>(result: seq<seq<T>>, item: T, batchSize: int)
    requires batchSize >= 1 && FullBatches(result, batchSize)
    ensures FullBatches(Step(result, item, batchSize), batchSize)
    ensures |Step(result, item, batchSize)| > 0
  {
    if |result| > 0 {
      var rest, last := result[..|result| - 1], result[|result| - 1];
      var bs := Step(result, item, batchSize);
      if |last| < batchSize {
        assert bs == rest + [last + [item]];
      } else {
        assert bs == result + [[item]];
      }
    }
  }

  /** With `batchSize >= 1` the batches join back into the input, none is
      empty or longer than `batchSize`, only the last may be short, and an
      empty input gives no batches. */
  lemma {:induction false} BatchesPartitionInput<T>(arr: seq<T>, batchSize: int)
    requires batchSize >= 1
    ensures Flatten(Reduce(arr, batchSize)) == arr
    ensures FullBatches(Reduce(arr, batchSize), batchSize)
    ensures |Reduce(arr, batchSize)| == 0 <==> |arr| == 0
  {
    if |arr| > 0 {
      var init, x := arr[..|arr| - 1], arr[|arr| - 1];
      BatchesPartitionInput(init, batchSize);
      StepAppendsItem(Reduce(init, batchSize), x, batchSize);
      StepKeepsBatchesFull(Reduce(init, batchSize), x, batchSize);
      assert init + [x] == arr;
    }
  }

  /** The joined length of full batches: all but the last contribute `batchSize`. */
  lemma {:induction false} FlattenLength<T>(batches: seq<seq<T>>, batchSize: int)
    requires |batches| > 0 && FullBatches(batches, batchSize)
    ensures |Flatten(batches)| == (|batches| - 1) * batchSize + |batches[|batches| - 1]|
  {
    if |batches| > 1 {
      var init := batches[..|batches| - 1];
      assert FullBatches(init, batchSize);
      FlattenLength(init, batchSize);
      assert |init[|init| - 1]| == batchSize;
      assert (|batches| - 2) * batchSize + batchSize == (|batches| - 1) * batchSize;
    }
  }

  lemma QuotientFromBounds(a: int, n: int, q: int)
    requires n >= 1 && q * n <= a < q * n + n
    ensures a / n == q
  {
    var d := a / n;
    assert d * n <= a < d * n + n;
    if d < q {
      MulAtLeast(q - d, n);
      Distribute(q, d, n);
    } else if d > q {
      MulAtLeast(d - q, n);
      Distribute(d, q, n);
    }
  }

  lemma MulAtLeast(k: int, n: int)
    requires k >= 1 && n >= 1
    ensures k * n >= n
  {
  }

  lemma Distribute(a: int, b: int, n: int)
    ensures (a - b) * n == a * n - b * n
  {
  }

  /** `k` batches of which all but the last are full hold `ceil(len / n) == k` items. */
  lemma CeilFromLastBatch(len: int, n: int, k: int, last: int)
    requires n >= 1 && k >= 1 && 1 <= last <= n
    requires len == (k - 1) * n + last
    ensures (len + n - 1) / n == k
  {
    Distribute(k, 1, n);
    QuotientFromBounds(len + n - 1, n, k);
  }

  /** With `batchSize >= 1` there are `ceil(|arr| / batchSize)` batches. */
  lemma {:induction false} BatchCount<T>(arr: seq<T>, batchSize: int)
    requires batchSize >= 1
    ensures |Reduce(arr, batchSize)| == (|arr| + batchSize - 1) / batchSize
  {
    var bs := Reduce(arr, batchSize);
    BatchesPartitionInput(arr, batchSize);
    if |arr| == 0 {
      QuotientFromBounds(batchSize - 1, batchSize, 0);
    } else {
      FlattenLength(bs, batchSize);
      CeilFromLastBatch(|arr|, batchSize, |bs|, |bs[|bs| - 1]|);
    }
  }

  /** With `batchSize <= 0` no batch ever has room: the result is an empty
      first batch followed by one singleton batch per item. */
  lemma {:induction false} NonPositiveBatchSize<T>(arr: seq<T>, batchSize: int)
    requires batchSize <= 0
    ensures Reduce(arr, batchSize) == if |arr| == 0 then [] else [[]] + Singletons(arr)
    ensures |arr| > 0 ==> var r := Reduce(arr, batchSize);
      && |r| == |arr| + 1 && r[0] == []
      && forall i :: 0 <= i < |arr| ==> r[i + 1] == [arr[i]]
  {
    if |arr| > 0 {
      var init, x := arr[..|arr| - 1], arr[|arr| - 1];
      NonPositiveBatchSize(init, batchSize);
      var r := Reduce(init, batchSize);
      if |init| == 0 {
        assert Reduce(arr, batchSize) == Step([], x, batchSize);
        assert Singletons(arr) == [[x]];
      } else {
        assert r[|r| - 1] == [init[|init| - 1]];
        assert r[..|r| - 1] + [r[|r| - 1]] == r;
        assert Singletons(arr) == Singletons(init) + [[x]];
      }
    }
  }
}
