/** Fixed-width slicing of a sequence, as Python writes it:
      [s[i:i + step] for i in range(0, len(s), step)]
    Both the text chunker of the vector store and the row batcher of the bulk
    insert are this expression, on characters and on table rows. */
module Chunking {
  import opened Wrappers

  /** range() refuses a step of 0 with ValueError. */
  datatype RangeError = ZeroStep

  function Min(a: int, b: int): int { if a <= b then a else b }

  /** ceil(n / step): how many values range(0, n, step) yields. */
  function ChunkCount(n: nat, step: nat): nat
    requires step > 0
  {
    (n + step - 1) / step
  }

  /** The chunks for a positive step: each slice is clamped at the end of `s`,
      as a Python slice is. */
  function Chunks<T>(s: seq<T>, step: nat): seq<seq<T>>
    requires step > 0
    decreases |s|
  {
    if |s| == 0 then []
    else if |s| <= step then [s]
    else [s[..step]] + Chunks(s[step..], step)
  }

  /** The whole comprehension, for any integer step: a zero step raises,
      a negative one gives an empty range and so no chunks. */
  function PyChunks<T>(s: seq<T>, step: int): (r: Result<seq<seq<T>>, RangeError>)
    ensures step == 0 <==> r.Err?
    ensures step < 0 ==> r == Ok([])
    ensures step > 0 ==> r == Ok(Chunks(s, step))
    ensures step > 0 ==> Flatten(r.value) == s && |r.value| == ChunkCount(|s|, step)
  {
    if step == 0 then Err(ZeroStep)
    else if step < 0 then Ok([])
    else
      ChunksFlatten(s, step);
      ChunksCount(s, step);
      Ok(Chunks(s, step))
  }

  function Flatten<T>(ss: seq<seq<T>>): seq<T>
  {
    if ss == [] then [] else ss[0] + Flatten(ss[1..])
  }

  lemma FlattenCons<T>(x: seq<T>, rest: seq<seq<T>>)
    ensures Flatten([x] + rest) == x + Flatten(rest)
  {
    assert ([x] + rest)[0] == x;
    assert ([x] + rest)[1..] == rest;
  }

  /** A sequence longer than the step splits into its first chunk and the chunks of the rest. */
  lemma ChunksStep<T>(s: seq<T>, step: nat)
    requires 0 < step < |s|
    ensures Chunks(s, step) == [s[..step]] + Chunks(s[step..], step)
  {
  }

  /** Concatenating the chunks in order gives back the sequence. */
  lemma {:induction false} ChunksFlatten<T>(s: seq<T>, step: nat)
    requires step > 0
    ensures Flatten(Chunks(s, step)) == s
    decreases |s|
  {
    if |s| == 0 {
    } else if |s| <= step {
      assert Chunks(s, step) == [s];
      FlattenCons(s, []);
    } else {
      ChunksStep(s, step);
      FlattenCons(s[..step], Chunks(s[step..], step));
      ChunksFlatten(s[step..], step);
      assert s == s[..step] + s[step..];
    }
  }

  /** There are ceil(|s| / step) chunks, stated without division: the last
      one starts before |s| and a full one more would reach past it. None for
      an empty sequence. */
  lemma {:induction false} ChunksCount<T>(s: seq<T>, step: nat)
    requires step > 0
    ensures |Chunks(s, step)| == 0 <==> |s| == 0
    ensures |s| > 0 ==> (|Chunks(s, step)| - 1) * step < |s| <= |Chunks(s, step)| * step
    ensures |Chunks(s, step)| == ChunkCount(|s|, step)
    decreases |s|
  {
    if |s| == 0 {
      DivUnique(step - 1, step, 0);
    } else if |s| <= step {
      assert Chunks(s, step) == [s];
      CountFromBounds(|s|, step, 1);
    } else {
      ChunksStep(s, step);
      ChunksCount(s[step..], step);
      BoundsStep(|s|, step, |Chunks(s[step..], step)|);
      CountFromBounds(|s|, step, |Chunks(s, step)|);
    }
  }

  /** If c chunks cover n - step, one more covers n. */
  lemma BoundsStep(n: nat, step: nat, c: nat)
    requires step > 0 && n > step && (c - 1) * step < n - step <= c * step
    ensures c * step < n <= (c + 1) * step
  {
    assert (c + 1) * step == c * step + step;
    assert (c - 1) * step + step == c * step;
  }

  /** c chunks exactly cover n when (c - 1) * step < n <= c * step. */
  lemma CountFromBounds(n: nat, step: nat, c: nat)
    requires step > 0 && c >= 1 && (c - 1) * step < n <= c * step
    ensures ChunkCount(n, step) == c
  {
    assert c * step == (c - 1) * step + step;
    DivUnique(n + step - 1, step, c);
  }

  lemma MulMono(a: int, b: int, d: nat)
    requires a <= b
    ensures a * d <= b * d
  {
    assert b * d == a * d + (b - a) * d;
  }

  /** The quotient is the one q with q*d <= n < (q+1)*d. */
  lemma DivUnique(n: nat, d: nat, q: nat)
    requires d > 0 && q * d <= n < q * d + d
    ensures n / d == q
  {
    var p := n / d;
    assert p * d <= n < p * d + d;
    assert (p + 1) * d == p * d + d;
    assert (q + 1) * d == q * d + d;
    if p < q {
      MulMono(p + 1, q, d);
    } else if p > q {
      MulMono(q + 1, p, d);
    }
  }

  /** Chunk k is the slice s[k*step : k*step + step], clamped at |s|: the
      comprehension's own reading of its range. */
  lemma {:induction false} ChunkAt<T>(s: seq<T>, step: nat, k: nat)
    requires step > 0
    requires k < |Chunks(s, step)|
    ensures k * step < |s|
    ensures Chunks(s, step)[k] == s[k * step .. Min(k * step + step, |s|)]
    decreases |s|
  {
    if |s| <= step {
      assert k == 0;
    } else if k > 0 {
      var rest := s[step..];
      ChunksStep(s, step);
      assert Chunks(s, step)[k] == Chunks(rest, step)[k - 1];
      ChunkAt(rest, step, k - 1);
      var lo := (k - 1) * step;
      var hi := Min(lo + step, |rest|);
      assert |rest| == |s| - step;
      assert lo + step == k * step;
      assert hi + step == Min(k * step + step, |s|);
      SliceShift(s, step, lo, hi);
    }
  }

  lemma SliceShift<T>(s: seq<T>, d: nat, lo: nat, hi: nat)
    requires d <= |s| && lo <= hi <= |s| - d
    ensures s[d..][lo..hi] == s[lo + d .. hi + d]
  {
    forall j | 0 <= j < hi - lo
      ensures s[d..][lo..hi][j] == s[lo + d .. hi + d][j]
    {
      assert s[d..][lo..hi][j] == s[d..][lo + j] == s[d + lo + j];
    }
  }

  /** Every chunk is non-empty and at most `step` long, and every chunk but
      the last is exactly `step` long. */
  lemma {:induction false} ChunkBounds<T>(s: seq<T>, step: nat, k: nat)
    requires step > 0
    requires k < |Chunks(s, step)|
    ensures 0 < |Chunks(s, step)[k]| <= step
    ensures k + 1 < |Chunks(s, step)| ==> |Chunks(s, step)[k]| == step
    decreases |s|
  {
    if |s| > step && k > 0 {
      ChunkBounds(s[step..], step, k - 1);
    }
  }
}
