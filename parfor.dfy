/**
 * The chunked parallel loop of parfor.go. Workers share one counter; each
 * fetch-and-add of grain claims the chunk that starts at the counter's previous
 * value, clamped to n, and a worker stops at its first claim at or past n.
 * Every claim returns a different multiple of grain, so the set of chunks
 * handed to f is the same under every interleaving of the workers; the model
 * runs the counter sequentially and returns the calls of f in claim order.
 */
module ParFor {
  import opened Slices

  /** How many chunks cover [0, n): ceil(n / grain), none when n <= 0. */
  function NumChunks(n: int, grain: int): nat
    requires n > 0 ==> grain >= 1
  {
    if n <= 0 then 0 else (n + grain - 1) / grain
  }

  /** The k-th claimed chunk: it starts at k * grain and is clamped to n. */
  function Chunk(n: int, grain: int, k: int): (int, int) {
    (k * grain, Min((k + 1) * grain, n))
  }

  /** Every call f(start, end) that ParallelFor makes, in counter order. */
  function Chunks(n: int, grain: int): seq<(int, int)>
    requires n > 0 ==> grain >= 1
  {
    seq(NumChunks(n, grain), k => Chunk(n, grain, k))
  }

  /** Multiplying by a non-negative grain keeps the order. */
  lemma MulMonotone(a: int, b: int, grain: int)
    requires a <= b && grain >= 0
    ensures a * grain <= b * grain
  {
    assert b * grain - a * grain == (b - a) * grain;
  }

  /** The quotient and remainder of Euclidean division by a positive grain. */
  lemma DivMod(x: int, grain: int)
    requires grain >= 1
    ensures x == (x / grain) * grain + x % grain && 0 <= x % grain < grain
  {
  }

  /** The chunk number of an index is the one whose [k * grain, (k + 1) * grain) holds it. */
  lemma DivUnique(x: int, grain: int, k: int)
    requires grain >= 1
    requires k * grain <= x < (k + 1) * grain
    ensures k == x / grain
  {
    var q := x / grain;
    DivMod(x, grain);
    assert (q + 1) * grain == q * grain + grain;
    assert (k + 1) * grain == k * grain + grain;
    if q < k {
      MulMonotone(q + 1, k, grain);
    } else if q > k {
      MulMonotone(k + 1, q, grain);
    }
  }

  /** The chunks reach exactly to n, and the last one starts below n. */
  lemma NumChunksBounds(n: int, grain: int)
    requires grain >= 1 && n > 0
    ensures NumChunks(n, grain) >= 1
    ensures (NumChunks(n, grain) - 1) * grain < n <= NumChunks(n, grain) * grain
  {
    var q := (n + grain - 1) / grain;
    DivMod(n + grain - 1, grain);
    assert (q - 1) * grain == q * grain - grain;
    if q < 1 {
      MulMonotone(q, 0, grain);
    }
  }

  /** m chunks are exactly enough when the last one starts below n and they reach n. */
  lemma NumChunksExact(n: int, grain: int, m: nat)
    requires grain >= 1
    requires m * grain >= n
    requires m == 0 || (m - 1) * grain < n
    ensures m == NumChunks(n, grain)
  {
    if n > 0 {
      var q := NumChunks(n, grain);
      NumChunksBounds(n, grain);
      assert m != 0;
      if m < q {
        MulMonotone(m, q - 1, grain);
      } else if m > q {
        MulMonotone(q, m - 1, grain);
      }
    }
  }

  /**
   * ParallelFor(n, grain, f): claim chunks from the counter until a claim starts at or
   * past n; each claimed chunk is clamped to n and passed to f. Returns the calls.
   * With n <= 0 the first claim stops the loop, so the grain is not constrained there.
   */
  method ParallelFor(n: int, grain: int) returns (calls: seq<(int, int)>)
    requires n > 0 ==> grain >= 1
    ensures calls == Chunks(n, grain)
  {
    var idx := 0;
    calls := [];
    while true
      invariant idx == |calls| * grain
      invariant n <= 0 ==> calls == []
      invariant |calls| == 0 || (|calls| - 1) * grain < n
      invariant forall k :: 0 <= k < |calls| ==> calls[k] == Chunk(n, grain, k)
      decreases n - idx
    {
      var start := idx;
      idx := idx + grain;
      if start >= n {
        break;
      }
      var end := start + grain;
      if end > n {
        end := n;
      }
      calls := calls + [(start, end)];
    }
    if n > 0 {
      NumChunksExact(n, grain, |calls|);
    }
  }

  /** Every call has start < end <= n, start a multiple of grain and end = min(start + grain, n). */
  lemma ChunkBounds(n: int, grain: int, k: nat)
    requires grain >= 1 && k < NumChunks(n, grain)
    ensures var (start, end) := Chunks(n, grain)[k];
      && 0 <= start < end <= n
      && start % grain == 0
      && end == Min(start + grain, n)
  {
    NumChunksBounds(n, grain);
    MulMonotone(k, NumChunks(n, grain) - 1, grain);
    MulMonotone(0, k, grain);
    assert (k + 1) * grain == k * grain + grain;
    DivUnique(k * grain, grain, k);
    DivMod(k * grain, grain);
  }

  /** No two calls overlap. */
  lemma ChunksDisjoint(n: int, grain: int, a: nat, b: nat)
    requires grain >= 1 && a < b < NumChunks(n, grain)
    ensures Chunks(n, grain)[a].1 <= Chunks(n, grain)[b].0
  {
    MulMonotone(a + 1, b, grain);
  }

  /** Every index in [0, n) lies in the call numbered index / grain. */
  lemma ChunksCover(n: int, grain: int, x: int)
    requires grain >= 1 && 0 <= x < n
    ensures x / grain < NumChunks(n, grain)
    ensures Chunks(n, grain)[x / grain].0 <= x < Chunks(n, grain)[x / grain].1
  {
    var k := x / grain;
    DivMod(x, grain);
    assert k * grain <= x < (k + 1) * grain by {
      assert (k + 1) * grain == k * grain + grain;
    }
    NumChunksBounds(n, grain);
    assert k < NumChunks(n, grain) by {
      if k >= NumChunks(n, grain) {
        MulMonotone(NumChunks(n, grain), k, grain);
      }
    }
    assert Chunks(n, grain)[k] == (k * grain, Min((k + 1) * grain, n));
  }

  /** A call that holds an index is the call numbered index / grain, and only indices
      in [0, n) lie in calls: with ChunksDisjoint, each index is covered exactly once. */
  lemma ChunksCoverOnly(n: int, grain: int, x: int, k: nat)
    requires grain >= 1 && k < NumChunks(n, grain)
    requires Chunks(n, grain)[k].0 <= x < Chunks(n, grain)[k].1
    ensures 0 <= x < n && k == x / grain
  {
    ChunkBounds(n, grain, k);
    assert (k + 1) * grain == k * grain + grain;
    DivUnique(x, grain, k);
  }

  /** The calls tile [0, n) in order: the first starts at 0 and each later one starts
      where the previous one ended. */
  lemma ChunksConsecutive(n: int, grain: int, k: nat)
    requires grain >= 1 && k < NumChunks(n, grain)
    ensures Chunks(n, grain)[k].0 == if k == 0 then 0 else Chunks(n, grain)[k - 1].1
  {
    if k > 0 {
      NumChunksBounds(n, grain);
      MulMonotone(k, NumChunks(n, grain) - 1, grain);
      assert (k - 1 + 1) * grain == k * grain;
    }
  }

  /** The last call ends at n. */
  lemma ChunksEnd(n: int, grain: int)
    requires grain >= 1 && n > 0
    ensures Chunks(n, grain)[NumChunks(n, grain) - 1].1 == n
  {
    NumChunksBounds(n, grain);
    assert (NumChunks(n, grain) - 1 + 1) * grain == NumChunks(n, grain) * grain;
  }

  /** A list of calls tiles [0, n) in order: the first starts at 0, each later one starts
      where the previous one ended, none is empty or leaves [0, n), and the last ends at n. */
  predicate Tiles(calls: seq<(int, int)>, n: int) {
    && (|calls| == 0 ==> n <= 0)
    && (|calls| > 0 ==> calls[|calls| - 1].1 == n)
    && (forall k :: 0 <= k < |calls| ==>
          0 <= calls[k].0 < calls[k].1 <= n && calls[k].0 == if k == 0 then 0 else calls[k - 1].1)
  }

  /** Call k of a tiling starts where call k - 1 ended (at 0 for the first) and ends
      within [0, n). */
  lemma TilesCall(calls: seq<(int, int)>, n: int, k: int)
    requires Tiles(calls, n) && 0 <= k < |calls|
    ensures calls[k].0 == if k == 0 then 0 else calls[k - 1].1
    ensures 0 <= calls[k].0 < calls[k].1 <= n
  {
    assert 0 <= calls[k].0 < calls[k].1 <= n && calls[k].0 == if k == 0 then 0 else calls[k - 1].1;
  }

  /** The calls ParallelFor hands out tile [0, n). */
  lemma ChunksTile(n: int, grain: int)
    requires grain >= 1
    ensures Tiles(Chunks(n, grain), n)
  {
    var calls := Chunks(n, grain);
    forall k | 0 <= k < |calls|
      ensures 0 <= calls[k].0 < calls[k].1 <= n && calls[k].0 == if k == 0 then 0 else calls[k - 1].1
    {
      ChunkBounds(n, grain, k);
      ChunksConsecutive(n, grain, k);
    }
    if n > 0 {
      ChunksEnd(n, grain);
    }
  }

  /** With n <= 0 the first claim already starts at or past n: f is never called. */
  lemma NoChunksWhenEmpty(n: int, grain: int)
    requires n <= 0
    ensures Chunks(n, grain) == []
  {
  }
}
