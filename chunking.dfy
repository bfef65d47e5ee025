/**
 * The batching of an identifier list for the annotation endpoint: the
 * service accepts at most `ChunkSize` identifiers per request, so the list
 * is cut at offsets 0, ChunkSize, 2 * ChunkSize, ... (Python's
 * `range(0, len(xs), 2000)` with the slice `xs[i:i + 2000]`).
 */
module Chunking {
  import opened Seqs

  /** Largest number of identifiers the service takes in one request. */
  const ChunkSize: nat := 2000

  function Min(a: int, b: int): int
  {
    if a <= b then a else b
  }

  /** Number of chunks needed for `n` items: the ceiling of n / ChunkSize. */
  function CeilChunks(n: nat): nat
  {
    (n + ChunkSize - 1) / ChunkSize
  }

  /**
   * The chunks of `xs`, front to back.  Every chunk is non-empty, none is
   * longer than ChunkSize, all but the last are full, and there are
   * ceil(|xs| / ChunkSize) of them.
   */
  function Chunks<T>(xs: seq<T>): (chunks: seq<seq<T>>)
    ensures |chunks| == CeilChunks(|xs|)
    ensures forall k :: 0 <= k < |chunks| ==> 1 <= |chunks[k]| <= ChunkSize
    ensures forall k :: 0 <= k < |chunks| - 1 ==> |chunks[k]| == ChunkSize
    decreases |xs|
  {
    if |xs| == 0 then []
    else if |xs| <= ChunkSize then [xs]
    else [xs[..ChunkSize]] + Chunks(xs[ChunkSize..])
  }

  /** Concatenating the chunks in order gives back the input. */
  lemma {:induction false} FlattenChunks<T>(xs: seq<T>)
    ensures Flatten(Chunks(xs)) == xs
    decreases |xs|
  {
    if |xs| > ChunkSize {
      var chunks := Chunks(xs);
      assert chunks[1..] == Chunks(xs[ChunkSize..]);
      FlattenChunks(xs[ChunkSize..]);
      assert xs[..ChunkSize] + xs[ChunkSize..] == xs;
    } else if |xs| > 0 {
      assert Chunks(xs)[1..] == [];
    }
  }

  /**
   * Chunk k is the slice that starts at offset k * ChunkSize, clamped at the
   * end of the input, so the chunks start at increasing offsets 0, 2000, ...
   */
  lemma {:induction false} ChunkAt<T>(xs: seq<T>, k: nat)
    requires k < |Chunks(xs)|
    ensures k * ChunkSize < |xs|
    ensures Chunks(xs)[k] == xs[k * ChunkSize .. Min(k * ChunkSize + ChunkSize, |xs|)]
    decreases k
  {
    ChunkExists(xs, k);
    if k > 0 {
      var tail := xs[ChunkSize..];
      assert Chunks(xs)[k] == Chunks(tail)[k - 1];
      ChunkAt(tail, k - 1);
      SliceOfSuffix(xs, ChunkSize, (k - 1) * ChunkSize, Min(k * ChunkSize, |tail|));
    }
  }

  /** A slice of a suffix is a slice of the whole, shifted by the suffix's offset. */
  lemma SliceOfSuffix<T>(xs: seq<T>, d: nat, lo: nat, hi: nat)
    requires d <= |xs| && lo <= hi <= |xs| - d
    ensures xs[d..][lo..hi] == xs[d + lo .. d + hi]
  {
  }

  /** There is a chunk at index k exactly when offset k * ChunkSize is inside the input. */
  lemma ChunkExists<T>(xs: seq<T>, k: nat)
    ensures k < |Chunks(xs)| <==> k * ChunkSize < |xs|
  {
  }
}
