/** Checkpoint placement: where a launch built from the scheduler's metadata stores its states. */
module ScanCache {
  import opened ScanKernel
  import opened ScanSchedule
  import opened Sums

  // ----- the metadata of a prefix-caching launch

  /** The builder's block index: ceil(n / size) - 1, but not below 0. */
  function LastBlock(n: nat, size: nat): nat
    requires size > 0
  {
    if Cdiv(n, size) == 0 then 0 else Cdiv(n, size) - 1
  }

  lemma LastBlockHolds(n: nat, size: nat)
    requires size > 0 && n > 0
    ensures InBlock(LastBlock(n, size), n, size)
  {
    CdivBound(n, size);
    var c := Cdiv(n, size);
    assert c != 0;
    BlocksAre(c, size);
  }

  lemma OneBlock(c: nat, e: nat, n: nat, size: nat)
    requires InBlock(c, n, size) && InBlock(e, n, size)
    ensures c == e
  {
    if c < e {
      BlocksApart(c, e, size);
    } else if e < c {
      BlocksApart(e, c, size);
    }
  }

  /** The part of the metadata that is not about chunks. */
  ghost predicate Indexed(q: Batch, computed: seq<nat>) {
    && 1 <= q.ratio && q.varlen && q.cacheEnabled && 1 <= q.blockSize
    && |computed| == |q.table| == |q.blockFirst| == |q.blockLast| == |q.initIdx| == |q.lastChunk| == q.size
    && Requests(computed, q.starts)
    && q.hasInitialState.Some? && |q.hasInitialState.value| == q.size
  }

  /** Row `b` has new tokens, and its block indices are those the builder computes. */
  ghost predicate RowIndexed(q: Batch, computed: seq<nat>, b: nat)
    requires Indexed(q, computed) && b < q.size
  {
    var n := NewTokens(computed, q.starts, b);
    && n > 0
    && q.hasInitialState.value[b] == (computed[b] > 0)
    && q.initIdx[b] == LastBlock(computed[b], q.blockSize)
    && q.blockFirst[b] == LastBlock(computed[b] + 1, q.blockSize)
    && q.blockLast[b] == LastBlock(computed[b] + n, q.blockSize)
    && q.blockLast[b] < |q.table[b]|
  }

  /** Row `b` is cut into the chunk lengths the builder computes. */
  ghost predicate RowBuilt(q: Batch, computed: seq<nat>, rows: seq<seq<nat>>, b: nat)
    requires Indexed(q, computed) && b < q.size && |rows| == q.size
  {
    rows[b] == ChunkLens(computed[b], NewTokens(computed, q.starts, b), q.blockSize)
  }

  /** `q` is what the metadata builder produces for requests with `computed` tokens each. */
  ghost predicate BuiltFrom(q: Batch, computed: seq<nat>, rows: seq<seq<nat>>) {
    && Indexed(q, computed) && |rows| == q.size
    && (forall b :: 0 <= b < q.size ==> RowIndexed(q, computed, b))
    && (forall b :: 0 <= b < q.size ==> RowBuilt(q, computed, rows, b))
    && Metadata(rows, q.cu, q.lastChunk)
  }

  /** `rows` are non-empty chunk lengths that cover each row of `q`. */
  ghost predicate RowsCover(q: Batch, rows: seq<seq<nat>>) {
    && |rows| == |q.lastChunk| == q.size && q.varlen && |q.starts| == q.size + 1
    && Metadata(rows, q.cu, q.lastChunk)
    && (forall b :: 0 <= b < q.size ==> Positive(rows[b]))
    && (forall b :: 0 <= b < q.size ==> |rows[b]| > 0 && Sum(rows[b]) == SeqLen(q, b))
  }

  lemma BuiltRow(q: Batch, computed: seq<nat>, rows: seq<seq<nat>>, b: nat)
    requires BuiltFrom(q, computed, rows) && b < q.size
    ensures RowShape(rows[b], computed[b] % q.blockSize, NewTokens(computed, q.starts, b), q.blockSize)
  {
    assert RowIndexed(q, computed, b) && RowBuilt(q, computed, rows, b);
    RowFromShape(computed[b] % q.blockSize, NewTokens(computed, q.starts, b), q.blockSize);
  }

  lemma BuiltRowsCover(q: Batch, computed: seq<nat>, rows: seq<seq<nat>>)
    requires BuiltFrom(q, computed, rows)
    ensures RowsCover(q, rows)
  {
    forall b | 0 <= b < q.size ensures Positive(rows[b]) && |rows[b]| > 0 && Sum(rows[b]) == SeqLen(q, b) {
      BuiltRow(q, computed, rows, b);
    }
  }

  /** A covered row finds its chunks at the offsets of its own chunk lengths. */
  lemma RowCovers(q: Batch, rows: seq<seq<nat>>, b: nat, c: nat)
    requires RowsCover(q, rows) && b < q.size && c <= |rows[b]|
    ensures FirstChunk(q, b) + |rows[b]| == q.lastChunk[b] + 1 < |q.cu|
    ensures q.cu[FirstChunk(q, b) + c] == q.cu[FirstChunk(q, b)] + Sum(rows[b][..c])
    ensures q.cu[q.lastChunk[b] + 1] == q.cu[FirstChunk(q, b)] + SeqLen(q, b)
  {
    RowOffsets(rows, q.cu, q.lastChunk, b, c);
    RowOffsets(rows, q.cu, q.lastChunk, b, |rows[b]|);
    assert rows[b][..|rows[b]|] == rows[b];
  }

  lemma CoveredIsCacheWellFormed(q: Batch, rows: seq<seq<nat>>)
    requires RowsCover(q, rows) && q.cacheEnabled && 1 <= q.blockSize
    requires |q.table| == |q.blockFirst| == |q.blockLast| == |q.initIdx| == q.size
    requires forall b :: 0 <= b < q.size ==> q.initIdx[b] < |q.table[b]|
    ensures CacheWellFormed(q)
  {
    OffsetsIncrease(rows, q.cu, q.lastChunk);
    forall b | 0 <= b < q.size
      ensures FirstChunk(q, b) <= q.lastChunk[b] < |q.cu| - 1
      ensures q.cu[q.lastChunk[b] + 1] == q.cu[FirstChunk(q, b)] + SeqLen(q, b)
    {
      RowCovers(q, rows, b, 0);
    }
  }

  lemma LastBlockMonotone(n: nat, m: nat, size: nat)
    requires size > 0 && n <= m && m > 0
    ensures LastBlock(n, size) <= LastBlock(m, size)
  {
    if n > 0 {
      LastBlockHolds(n, size);
      LastBlockHolds(m, size);
      BlockOrder(LastBlock(n, size), LastBlock(m, size), n, m, size);
    } else {
      CdivBound(0, size);
    }
  }

  lemma BlockOrder(c: nat, e: nat, n: nat, m: nat, size: nat)
    requires InBlock(c, n, size) && InBlock(e, m, size) && n <= m
    ensures c <= e
  {
    if e < c {
      BlocksApart(e, c, size);
      assert false;
    }
  }

  lemma InitIdxInRow(q: Batch, computed: seq<nat>, b: nat)
    requires Indexed(q, computed) && b < q.size && RowIndexed(q, computed, b)
    ensures q.initIdx[b] < |q.table[b]|
  {
    LastBlockMonotone(computed[b], computed[b] + NewTokens(computed, q.starts, b), q.blockSize);
  }

  lemma BuiltIsWellFormed(q: Batch, computed: seq<nat>, rows: seq<seq<nat>>)
    requires BuiltFrom(q, computed, rows)
    ensures WellFormed(q)
  {
    forall b | 0 <= b < q.size ensures q.initIdx[b] < |q.table[b]| {
      assert RowIndexed(q, computed, b);
      InitIdxInRow(q, computed, b);
    }
    BuiltRowsCover(q, computed, rows);
    CoveredIsCacheWellFormed(q, rows);
  }

  // ----- checkpoint placement

  /** A first chunk of at most a block, then whole blocks. */
  ghost predicate BlockShaped(q: Batch, b: nat)
    requires WellFormed(q) && q.cacheEnabled && b < q.size
  {
    && ChunkTokens(q, b, 0) <= q.blockSize
    && forall c :: 0 < c < NumChunks(q, b) - 1 ==> ChunkTokens(q, b, c) == q.blockSize
  }

  lemma {:induction false} ShapedOffsets(q: Batch, b: nat, c: nat)
    requires WellFormed(q) && q.cacheEnabled && b < q.size && BlockShaped(q, b) && c < NumChunks(q, b) - 1
    ensures StartPosition(q, b) + TokensBefore(q, b, c + 1) == Blocks(q.blockFirst[b] + c + 1, q.blockSize)
  {
    if c == 0 {
      assert TokensBefore(q, b, 0) == 0;
      assert ChunkTokens(q, b, 0) == TokensBefore(q, b, 1);
      BlocksAre(q.blockFirst[b], q.blockSize);
    } else {
      ShapedOffsets(q, b, c - 1);
      assert ChunkTokens(q, b, c) == q.blockSize;
    }
  }

  /** Every chunk but the last stores through the column of the block it completes. */
  lemma CheckpointColumn(q: Batch, b: nat, c: nat)
    requires WellFormed(q) && q.cacheEnabled && b < q.size && BlockShaped(q, b) && c < NumChunks(q, b) - 1
    ensures StoreColumn(q, b, c) == q.blockFirst[b] + c
  {
    ShapedOffsets(q, b, c);
    var f := q.blockFirst[b] + c;
    BlocksAre(f, q.blockSize);
    DivUnique(Blocks(f + 1, q.blockSize) - 1, q.blockSize, f, q.blockSize - 1);
  }

  // ----- the columns of a built row

  lemma RowTokens(q: Batch, rows: seq<seq<nat>>, b: nat, c: nat)
    requires RowsCover(q, rows) && WellFormed(q) && q.cacheEnabled && b < q.size && c <= |rows[b]|
    ensures NumChunks(q, b) == |rows[b]|
    ensures TokensBefore(q, b, c) == Sum(rows[b][..c])
  {
    RowCovers(q, rows, b, c);
    TokensAre(q, b, c, Sum(rows[b][..c]));
  }

  lemma TokensAre(q: Batch, b: nat, c: nat, n: nat)
    requires WellFormed(q) && q.cacheEnabled && b < q.size && c <= NumChunks(q, b)
    requires q.cu[FirstChunk(q, b) + c] == q.cu[FirstChunk(q, b)] + n
    ensures TokensBefore(q, b, c) == n
  {
  }

  lemma RowShaped(q: Batch, rows: seq<seq<nat>>, b: nat, used: nat, scheduled: nat)
    requires RowsCover(q, rows) && WellFormed(q) && q.cacheEnabled && b < q.size
    requires RowShape(rows[b], used, scheduled, q.blockSize)
    ensures BlockShaped(q, b)
  {
    RowTokens(q, rows, b, 0);
    forall c: nat | c < NumChunks(q, b) ensures ChunkTokens(q, b, c) == rows[b][c] {
      RowTokens(q, rows, b, c);
      RowTokens(q, rows, b, c + 1);
      SumSnoc(rows[b], c);
    }
  }

  /** Chunk `c` of row `b` stores through column `f + c`, and every chunk but the last ends where
      that block ends. */
  ghost predicate Columns(q: Batch, b: nat, computed: nat, f: nat)
    requires WellFormed(q) && q.cacheEnabled && b < q.size
  {
    && q.blockLast[b] == f + NumChunks(q, b) - 1
    && (forall c :: 0 <= c < NumChunks(q, b) ==> StoreColumn(q, b, c) == f + c)
    && (forall e :: 0 < e < NumChunks(q, b) ==> computed + TokensBefore(q, b, e) == Blocks(f + e, q.blockSize))
  }

  lemma RowColumns(q: Batch, rows: seq<seq<nat>>, b: nat, computed: nat, f: nat, used: nat, scheduled: nat)
    requires RowsCover(q, rows) && WellFormed(q) && q.cacheEnabled && b < q.size
    requires RowShape(rows[b], used, scheduled, q.blockSize) && computed == Blocks(f, q.blockSize) + used
    requires q.blockFirst[b] == f && q.blockLast[b] == f + |rows[b]| - 1
    ensures Columns(q, b, computed, f)
  {
    RowTokens(q, rows, b, 0);
    RowShaped(q, rows, b, used, scheduled);
    forall c | 0 <= c < NumChunks(q, b) - 1 ensures StoreColumn(q, b, c) == f + c {
      CheckpointColumn(q, b, c);
    }
    forall e | 0 < e < NumChunks(q, b)
      ensures computed + TokensBefore(q, b, e) == Blocks(f + e, q.blockSize)
    {
      ColumnEnd(q, rows, b, computed, f, used, scheduled, e);
    }
  }

  lemma ColumnEnd(q: Batch, rows: seq<seq<nat>>, b: nat, computed: nat, f: nat, used: nat, scheduled: nat, e: nat)
    requires RowsCover(q, rows) && WellFormed(q) && q.cacheEnabled && b < q.size && 0 < e < |rows[b]|
    requires RowShape(rows[b], used, scheduled, q.blockSize) && computed == Blocks(f, q.blockSize) + used
    ensures e < NumChunks(q, b) && computed + TokensBefore(q, b, e) == Blocks(f + e, q.blockSize)
  {
    RowTokens(q, rows, b, e);
    ChunkEnd(rows[b], f, used, scheduled, q.blockSize, e);
  }

  lemma ChunkEnd(row: seq<nat>, f: nat, used: nat, scheduled: nat, size: nat, e: nat)
    requires RowShape(row, used, scheduled, size) && 0 < e < |row|
    ensures Blocks(f, size) + used + Sum(row[..e]) == Blocks(f + e, size)
  {
    PrefixBoundary(row, f, used, scheduled, size, e - 1);
  }

  /** Row `b` of `q` runs `scheduled` tokens of a request that has `computed` tokens behind it, the
      next of which falls in block `f`. */
  ghost predicate RowReady(q: Batch, b: nat, computed: nat, scheduled: nat, f: nat) {
    && WellFormed(q) && q.cacheEnabled && b < q.size
    && scheduled > 0 && SeqLen(q, b) == scheduled
    && HasInit(q, b) == (computed > 0)
    && (computed > 0 ==> InBlock(q.initIdx[b], computed, q.blockSize))
    && InBlock(f, computed + 1, q.blockSize)
    && InBlock(q.blockLast[b], computed + scheduled, q.blockSize)
    && Columns(q, b, computed, f)
  }

  /** The builder's block indices are the first block with room and the block of the last chunk. */
  lemma BlockIndices(row: seq<nat>, first: nat, last: nat, computed: nat, f: nat, used: nat, scheduled: nat, size: nat)
    requires RowShape(row, used, scheduled, size) && computed == Blocks(f, size) + used && used < size
    requires InBlock(first, computed + 1, size) && InBlock(last, computed + scheduled, size)
    ensures first == f && last == f + |row| - 1
  {
    OneBlock(f, first, computed + 1, size);
    LastBoundary(row, f, used, scheduled, size);
    OneBlock(f + |row| - 1, last, computed + scheduled, size);
  }

  lemma RowIsReady(q: Batch, rows: seq<seq<nat>>, b: nat, computed: nat, f: nat, used: nat, scheduled: nat)
    requires RowsCover(q, rows) && WellFormed(q) && q.cacheEnabled && b < q.size
    requires scheduled > 0 && SeqLen(q, b) == scheduled
    requires RowShape(rows[b], used, scheduled, q.blockSize)
    requires computed == Blocks(f, q.blockSize) + used && used < q.blockSize
    requires HasInit(q, b) == (computed > 0)
    requires computed > 0 ==> InBlock(q.initIdx[b], computed, q.blockSize)
    requires InBlock(q.blockFirst[b], computed + 1, q.blockSize)
    requires InBlock(q.blockLast[b], computed + scheduled, q.blockSize)
    ensures RowReady(q, b, computed, scheduled, f)
  {
    BlockIndices(rows[b], q.blockFirst[b], q.blockLast[b], computed, f, used, scheduled, q.blockSize);
    RowColumns(q, rows, b, computed, f, used, scheduled);
  }

  lemma IndexedBlocks(q: Batch, computed: seq<nat>, b: nat)
    requires Indexed(q, computed) && b < q.size && RowIndexed(q, computed, b)
    ensures computed[b] > 0 ==> InBlock(q.initIdx[b], computed[b], q.blockSize)
    ensures InBlock(q.blockFirst[b], computed[b] + 1, q.blockSize)
    ensures InBlock(q.blockLast[b], computed[b] + NewTokens(computed, q.starts, b), q.blockSize)
  {
    if computed[b] > 0 {
      LastBlockHolds(computed[b], q.blockSize);
    }
    LastBlockHolds(computed[b] + 1, q.blockSize);
    LastBlockHolds(computed[b] + NewTokens(computed, q.starts, b), q.blockSize);
  }

  lemma SplitTokens(n: nat, size: nat)
    requires size > 0
    ensures n == Blocks(n / size, size) + n % size && n % size < size
  {
    BlocksAre(n / size, size);
  }

  /** What the metadata builder produces is ready: checkpoint placement for every schedule. */
  lemma BuiltIsReady(q: Batch, computed: seq<nat>, rows: seq<seq<nat>>, b: nat)
    requires BuiltFrom(q, computed, rows) && b < q.size
    ensures RowReady(q, b, computed[b], NewTokens(computed, q.starts, b), computed[b] / q.blockSize)
  {
    BuiltIsWellFormed(q, computed, rows);
    BuiltRowsCover(q, computed, rows);
    BuiltRow(q, computed, rows, b);
    assert RowIndexed(q, computed, b);
    IndexedBlocks(q, computed, b);
    SplitTokens(computed[b], q.blockSize);
    RowIsReady(q, rows, b, computed[b], computed[b] / q.blockSize, computed[b] % q.blockSize,
               NewTokens(computed, q.starts, b));
  }
}
