/**
 * Chunk planning for the parallel transaction write of `write_block`
 * (history/src/block_stores/postgres_block_store.rs): `div_ceil`, the
 * `MIN_WRITE_CHUNK_SIZE` floor and Rust's `slice::chunks`.
 */
module Chunking {

  /** `MIN_WRITE_CHUNK_SIZE`: the smallest chunk handed to one write session. */
  const MinWriteChunkSize: nat := 500

  /** `div_ceil(a, b) = (a + b - 1) / b`: the least `k` with `k * b >= a`. */
  function DivCeil(a: nat, b: nat): (k: nat)
    requires b > 0
    ensures k * b >= a
    ensures k > 0 ==> (k - 1) * b < a
  {
    var q := (a + b - 1) / b;
    assert a + b - 1 == q * b + (a + b - 1) % b;
    assert (q - 1) * b == q * b - b;
    q
  }

  /** Any `k` with `k * b >= a` is at least `div_ceil(a, b)`. */
  lemma DivCeilIsLeast(a: nat, b: nat, k: nat)
    requires b > 0
    requires k * b >= a
    ensures DivCeil(a, b) <= k
  {
    var d := DivCeil(a, b);
    if d > k {
      MulMonotone(k, d - 1, b);
    }
  }

  lemma MulMonotone(x: nat, y: nat, z: nat)
    requires x <= y
    ensures x * z <= y * z
  {
  }

  /** The chunk size `write_block` uses for `n` transactions and `sessions` write sessions. */
  function ChunkSize(n: nat, sessions: nat): (size: nat)
    requires sessions > 0
    ensures size >= MinWriteChunkSize && size >= DivCeil(n, sessions)
    ensures size == MinWriteChunkSize || size == DivCeil(n, sessions)
  {
    var perSession := DivCeil(n, sessions);
    if perSession >= MinWriteChunkSize then perSession else MinWriteChunkSize
  }

  /** Concatenation of a sequence of chunks. */
  function Flatten<T>(chunks: seq<seq<T>>): seq<T>
  {
    if chunks == [] then [] else chunks[0] + Flatten(chunks[1..])
  }

  lemma {:induction false} FlattenAppend<T>(a: seq<seq<T>>, b: seq<seq<T>>)
    ensures Flatten(a + b) == Flatten(a) + Flatten(b)
  {
    if a == [] {
      assert a + b == b;
    } else {
      assert (a + b)[1..] == a[1..] + b;
      FlattenAppend(a[1..], b);
    }
  }

  lemma DivCeilStep(n: nat, size: nat)
    requires size > 0 && n > size
    ensures DivCeil(n, size) == DivCeil(n - size, size) + 1
  {
    var k := DivCeil(n - size, size);
    assert (k + 1) * size == k * size + size;
    DivCeilIsLeast(n, size, k + 1);
    var d := DivCeil(n, size);
    assert (d - 1) * size >= n - size by {
      assert d * size >= n;
      assert (d - 1) * size == d * size - size;
    }
    DivCeilIsLeast(n - size, size, d - 1);
  }

  /**
   * Rust's `slice.chunks(size)`: consecutive chunks of `size` elements, the
   * last of which may be shorter; an empty slice has no chunks.
   */
  function Chunks<T>(s: seq<T>, size: nat): (r: seq<seq<T>>)
    requires size > 0
    ensures forall i :: 0 <= i < |r| ==> 0 < |r[i]| <= size
    ensures forall i :: 0 <= i < |r| - 1 ==> |r[i]| == size
    decreases |s|
  {
    if |s| == 0 then []
    else if |s| <= size then [s]
    else [s[..size]] + Chunks(s[size..], size)
  }

  /** The chunks concatenate back to the slice. */
  lemma {:induction false} ChunksFlatten<T>(s: seq<T>, size: nat)
    requires size > 0
    ensures Flatten(Chunks(s, size)) == s
    decreases |s|
  {
    if 0 < |s| <= size {
      assert Flatten([s]) == s + Flatten([s][1..]);
    } else if |s| > size {
      var rest := Chunks(s[size..], size);
      ChunksFlatten(s[size..], size);
      assert ([s[..size]] + rest)[1..] == rest;
    }
  }

  /** There are `div_ceil(|s|, size)` chunks. */
  lemma {:induction false} ChunkCount<T>(s: seq<T>, size: nat)
    requires size > 0
    ensures |Chunks(s, size)| == DivCeil(|s|, size)
    decreases |s|
  {
    if |s| == 0 {
      assert DivCeil(0, size) == 0;
    } else if |s| <= size {
      DivCeilIsLeast(|s|, size, 1);
    } else {
      ChunkCount(s[size..], size);
      DivCeilStep(|s|, size);
    }
  }

  /** Where chunk `i` of a slice of length `n` ends. */
  function ChunkEnd(i: nat, size: nat, n: nat): nat
  {
    if i * size + size <= n then i * size + size else n
  }

  /** Where chunk `i` starts, counted chunk by chunk. */
  function ChunkStart(i: nat, size: nat): nat
  {
    if i == 0 then 0 else ChunkStart(i - 1, size) + size
  }

  lemma {:induction false} ChunkStartIsProduct(i: nat, size: nat)
    ensures ChunkStart(i, size) == i * size
  {
    if i > 0 {
      ChunkStartIsProduct(i - 1, size);
      assert (i - 1) * size + size == i * size;
    }
  }

  function Min(a: nat, b: nat): nat
  {
    if a <= b then a else b
  }

  lemma SliceOfSuffix<T>(s: seq<T>, k: nat, lo: nat, hi: nat)
    requires k <= |s| && lo <= hi <= |s| - k
    ensures s[k..][lo..hi] == s[lo + k .. hi + k]
  {
  }

  /** `ChunkAt` with the start offset counted rather than multiplied. */
  lemma {:induction false} ChunkAtOffset<T>(s: seq<T>, size: nat, i: nat)
    requires size > 0 && i < |Chunks(s, size)|
    ensures ChunkStart(i, size) < Min(ChunkStart(i, size) + size, |s|)
    ensures Chunks(s, size)[i] == s[ChunkStart(i, size) .. Min(ChunkStart(i, size) + size, |s|)]
    decreases |s|
  {
    if |s| <= size {
      assert Chunks(s, size) == [s];
    } else if i == 0 {
      assert Chunks(s, size)[0] == s[..size];
    } else {
      var tail := s[size..];
      ChunksTail(s, size);
      ChunkAtOffset(tail, size, i - 1);
      OffsetStep(s, size, i, Chunks(tail, size)[i - 1]);
    }
  }

  /** Past the first chunk, the chunks of `s` are those of `s[size..]`. */
  lemma ChunksTail<T>(s: seq<T>, size: nat)
    requires size > 0 && |s| > size
    ensures Chunks(s, size) == [s[..size]] + Chunks(s[size..], size)
  {
  }

  /** A slice of `s[size..]` at offset `lo` is the slice of `s` at offset `lo + size`. */
  lemma OffsetStep<T>(s: seq<T>, size: nat, i: nat, c: seq<T>)
    requires size > 0 && |s| > size && i > 0
    requires ChunkStart(i - 1, size) < Min(ChunkStart(i - 1, size) + size, |s| - size)
    requires c == s[size..][ChunkStart(i - 1, size) .. Min(ChunkStart(i - 1, size) + size, |s| - size)]
    ensures ChunkStart(i, size) < Min(ChunkStart(i, size) + size, |s|)
    ensures c == s[ChunkStart(i, size) .. Min(ChunkStart(i, size) + size, |s|)]
  {
    var lo := ChunkStart(i - 1, size);
    SliceOfSuffix(s, size, lo, Min(lo + size, |s| - size));
  }

  /** Chunk `i` is the slice `s[i * size .. min((i + 1) * size, |s|)]`. */
  lemma ChunkAt<T>(s: seq<T>, size: nat, i: nat)
    requires size > 0 && i < |Chunks(s, size)|
    ensures i * size < ChunkEnd(i, size, |s|) <= |s|
    ensures Chunks(s, size)[i] == s[i * size .. ChunkEnd(i, size, |s|)]
  {
    ChunkAtOffset(s, size, i);
    ChunkStartIsProduct(i, size);
  }

  /**
   * The assertion `chunks.len() <= self.write_sessions.len()` of `write_block`
   * never fails: with `chunk_size = max(div_ceil(n, p), 500)` there are at most
   * `p` chunks.
   */
  lemma ChunkCountWithinSessions(n: nat, sessions: nat)
    requires sessions > 0
    ensures DivCeil(n, ChunkSize(n, sessions)) <= sessions
  {
    var size := ChunkSize(n, sessions);
    var perSession := DivCeil(n, sessions);
    assert sessions * size >= n by {
      MulMonotone(perSession, size, sessions);
    }
    DivCeilIsLeast(n, size, sessions);
  }

  /** The same bound for the chunks themselves, with every transaction in some chunk. */
  lemma ChunksFitSessions<T>(s: seq<T>, sessions: nat)
    requires sessions > 0
    ensures |Chunks(s, ChunkSize(|s|, sessions))| <= sessions
    ensures Flatten(Chunks(s, ChunkSize(|s|, sessions))) == s
    ensures s == [] <==> Chunks(s, ChunkSize(|s|, sessions)) == []
  {
    ChunkCount(s, ChunkSize(|s|, sessions));
    ChunksFlatten(s, ChunkSize(|s|, sessions));
    ChunkCountWithinSessions(|s|, sessions);
  }
}
