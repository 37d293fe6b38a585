/**
 * The slicing used by both ingestion loops: `for i in range(0, n, size): docs[i : i + size]`,
 * and the search for the first batch whose insertion raises.
 */
module Batching {

  function Min(a: int, b: int): int { if a <= b then a else b }

  /** The slices `s[i : i + size]` for `i` in `range(from, |s|, size)`; Python clamps the end at `|s|`. */
  function BatchesFrom<T>(s: seq<T>, size: nat, from: nat): seq<seq<T>>
    requires size > 0
    decreases |s| - from
  {
    if from >= |s| then [] else [s[from..Min(from + size, |s|)]] + BatchesFrom(s, size, from + size)
  }

  /** The batches an ingestion loop inserts, in order. */
  function Batches<T>(s: seq<T>, size: nat): seq<seq<T>>
    requires size > 0
  {
    BatchesFrom(s, size, 0)
  }

  /** Concatenation of a sequence of batches. */
  function Flatten<T>(bs: seq<seq<T>>): seq<T>
  {
    if bs == [] then [] else bs[0] + Flatten(bs[1..])
  }

  lemma {:induction false} FlattenAppend<T>(bs: seq<seq<T>>, b: seq<T>)
    ensures Flatten(bs + [b]) == Flatten(bs) + b
  {
    if bs == [] {
      assert [b][1..] == [];
    } else {
      assert (bs + [b])[1..] == bs[1..] + [b];
      FlattenAppend(bs[1..], b);
    }
  }

  lemma {:induction false} FlattenBatchesFrom<T>(s: seq<T>, size: nat, from: nat)
    requires size > 0 && from <= |s|
    ensures Flatten(BatchesFrom(s, size, from)) == s[from..]
    decreases |s| - from
  {
    if from < |s| {
      var bs := BatchesFrom(s, size, from);
      assert bs[1..] == BatchesFrom(s, size, from + size);
      if from + size <= |s| {
        FlattenBatchesFrom(s, size, from + size);
        assert s[from..] == s[from..from + size] + s[from + size..];
      } else {
        assert BatchesFrom(s, size, from + size) == [];
      }
    }
  }

  /** The batches, concatenated in order, give back the whole input: nothing lost, nothing repeated. */
  lemma BatchesConcat<T>(s: seq<T>, size: nat)
    requires size > 0
    ensures Flatten(Batches(s, size)) == s
  {
    FlattenBatchesFrom(s, size, 0);
  }

  /** Batch `f - 1` starts `size` before batch `f`, and not before `from`. */
  lemma OffsetStep(from: nat, f: nat, size: nat)
    requires f >= 1
    ensures from <= from + (f - 1) * size
    ensures from + (f - 1) * size + size == from + f * size
  {
  }

  lemma {:induction false} BatchAtFrom<T>(s: seq<T>, size: nat, from: nat, k: nat)
    requires size > 0 && k < |BatchesFrom(s, size, from)|
    ensures from + k * size < |s|
    ensures BatchesFrom(s, size, from)[k] == s[from + k * size .. Min(from + k * size + size, |s|)]
    decreases |s| - from
  {
    if k > 0 {
      assert BatchesFrom(s, size, from)[k] == BatchesFrom(s, size, from + size)[k - 1];
      BatchAtFrom(s, size, from + size, k - 1);
      OffsetStep(from, k, size);
    }
  }

  /** Batch `k` is exactly the slice `s[k * size : k * size + size]`, so the batches are contiguous. */
  lemma BatchAt<T>(s: seq<T>, size: nat, k: nat)
    requires size > 0 && k < |Batches(s, size)|
    ensures k * size < |s|
    ensures Batches(s, size)[k] == s[k * size .. Min(k * size + size, |s|)]
  {
    BatchAtFrom(s, size, 0, k);
  }

  lemma {:induction false} BatchCountFrom<T>(s: seq<T>, size: nat, from: nat)
    requires size > 0 && from <= |s|
    ensures |s| - from <= |BatchesFrom(s, size, from)| * size < |s| - from + size
    decreases |s| - from
  {
    if from < |s| {
      var k := |BatchesFrom(s, size, from)|;
      if from + size <= |s| {
        BatchCountFrom(s, size, from + size);
        assert k * size == (k - 1) * size + size;
      } else {
        assert BatchesFrom(s, size, from + size) == [];
        assert k == 1;
      }
    }
  }

  lemma MulBounds(d: int, size: int)
    requires size > 0
    ensures d >= 1 ==> d * size >= size
    ensures d <= -1 ==> d * size <= 0 - size
  {
    if d >= 1 {
      assert d * size == (d - 1) * size + size;
    } else if d <= -1 {
      assert d * size == (d + 1) * size - size;
    }
  }

  /** Euclidean division is determined by its defining equation. */
  lemma DivModUnique(x: int, size: int, a: int, b: int)
    requires size > 0 && 0 <= b < size && x == a * size + b
    ensures x / size == a && x % size == b
  {
    var a', b' := x / size, x % size;
    assert (a - a') * size == b' - b;
    MulBounds(a - a', size);
  }

  lemma CeilUnique(n: nat, size: nat, k: nat)
    requires size > 0 && n <= k * size < n + size
    ensures k == (n + size - 1) / size
  {
    DivModUnique(n + size - 1, size, k, n + size - 1 - k * size);
  }

  /** There are ceil(n / size) batches; in particular no batch at all when the input is empty. */
  lemma BatchCount<T>(s: seq<T>, size: nat)
    requires size > 0
    ensures |Batches(s, size)| == (|s| + size - 1) / size
    ensures |s| == 0 <==> |Batches(s, size)| == 0
  {
    BatchCountFrom(s, size, 0);
    CeilUnique(|s|, size, |Batches(s, size)|);
  }

  /**
   * Every batch but the last holds exactly `size` items; the last holds `n % size` items, or `size`
   * when `size` divides `n`; no batch is empty.
   */
  lemma BatchSizes<T>(s: seq<T>, size: nat, k: nat)
    requires size > 0 && k < |Batches(s, size)|
    ensures 0 < |Batches(s, size)[k]| <= size
    ensures k < |Batches(s, size)| - 1 ==> |Batches(s, size)[k]| == size
    ensures k == |Batches(s, size)| - 1 ==>
              |Batches(s, size)[k]| == (if |s| % size == 0 then size else |s| % size)
  {
    var bs := Batches(s, size);
    BatchAt(s, size, k);
    BatchCountFrom(s, size, 0);
    if k < |bs| - 1 {
      BatchAt(s, size, k + 1);
      OffsetStep(0, k + 1, size);
    } else {
      var n := |s|;
      OffsetStep(0, k + 1, size);
      assert n <= k * size + size < n + size;
      LastBatchRemainder(n, size, k);
    }
  }

  lemma LastBatchRemainder(n: nat, size: nat, k: nat)
    requires size > 0 && k * size < n <= k * size + size
    ensures n - k * size == (if n % size == 0 then size else n % size)
  {
    var m := n - k * size;
    assert 0 < m <= size;
    if m == size {
      assert n == (k + 1) * size;
      assert n % size == 0 by { DivModUnique(n, size, k + 1, 0); }
    } else {
      assert n == k * size + m;
      assert n % size == m by { DivModUnique(n, size, k, m); }
    }
  }

  lemma {:induction false} FlattenPrefixFrom<T>(s: seq<T>, size: nat, from: nat, f: nat)
    requires size > 0 && from <= |s| && f <= |BatchesFrom(s, size, from)|
    ensures Flatten(BatchesFrom(s, size, from)[..f]) == s[from..Min(from + f * size, |s|)]
    decreases f
  {
    var bs := BatchesFrom(s, size, from);
    if f == 0 {
      assert bs[..0] == [];
    } else {
      var a := from + (f - 1) * size;
      var b := from + f * size;
      OffsetStep(from, f, size);
      FlattenPrefixFrom(s, size, from, f - 1);
      FlattenAppend(bs[..f - 1], bs[f - 1]);
      assert bs[..f] == bs[..f - 1] + [bs[f - 1]];
      BatchAtFrom(s, size, from, f - 1);
      assert a < |s| && Min(a, |s|) == a;
      assert s[from..a] + s[a..Min(b, |s|)] == s[from..Min(b, |s|)];
    }
  }

  /** The first `f` batches together are the first `min(f * size, n)` items. */
  lemma FlattenPrefix<T>(s: seq<T>, size: nat, f: nat)
    requires size > 0 && f <= |Batches(s, size)|
    ensures Flatten(Batches(s, size)[..f]) == s[..Min(f * size, |s|)]
  {
    FlattenPrefixFrom(s, size, 0, f);
  }

  /** The least index in `[from, count)` whose batch fails, or `count` when none does. */
  function FirstFailure(fails: nat -> bool, from: nat, count: nat): (f: nat)
    requires from <= count
    ensures from <= f <= count
    ensures forall j :: from <= j < f ==> !fails(j)
    ensures f < count ==> fails(f)
    decreases count - from
  {
    if from == count then count else if fails(from) then from else FirstFailure(fails, from + 1, count)
  }
}
