/** A batch in which several rows resume from one cached prefix and one row is skipped. */
module ScanShared {
  import opened Wrappers
  import opened Sums
  import opened ScanKernel
  import opened ScanGrid
  import opened ScanLayout
  import opened ScanSchedule
  import opened ScanCache
  import opened ScanRuns
  import opened ScanLaunch
  import ScanSplits

  /** Three requests, each with one complete block behind it and one new token. The first two have the
      same first block, slot 1, and store to slots 2 and 3; the third has only null blocks. */
  ghost function SharedBatch(size: nat): Batch {
    Batch(
      true, 3, 1, 1, [0, 1, 2, 3], 0, true, true, [[1, 2], [1, 3], [-1, -1]], -1, Some([true, true, true]), size,
      [1, 1, 1], [1, 1, 1], [0, 0, 0], ScanSplits.OffsetsOf(Flat(THREE, 3)), [0, 1, 2])
  }

  const THREE: seq<seq<nat>> := [[1], [1], [1]]

  lemma BlockNumbers(size: nat)
    requires size > 0
    ensures LastBlock(size, size) == 0 && LastBlock(size + 1, size) == 1
    ensures ChunkLens(size, 1, size) == [1] && size / size == 1
  {
    LastBlockHolds(size, size);
    LastBlockHolds(size + 1, size);
    assert Blocks(0, size) == 0 && Blocks(1, size) == size && Blocks(2, size) == 2 * size;
    DivUnique(size, size, 1, 0);
    assert FullChunks(0, size) == [];
    assert FullChunks(1, size) == [1] + FullChunks(0, size) == [1];
    OneBlock(0, LastBlock(size, size), size, size);
    OneBlock(1, LastBlock(size + 1, size), size + 1, size);
  }

  lemma SharedOffsets(size: nat)
    ensures Metadata(THREE, SharedBatch(size).cu, SharedBatch(size).lastChunk)
  {
    assert |Flat(THREE, 0)| == 0;
    assert |Flat(THREE, 1)| == 1;
    assert |Flat(THREE, 2)| == 2;
    assert |Flat(THREE, 3)| == 3;
    forall r | 0 <= r < 3 ensures SharedBatch(size).lastChunk[r] == |Flat(THREE, r + 1)| - 1 {
      assert r == 0 || r == 1 || r == 2;
    }
  }

  lemma SharedIsBuilt(size: nat)
    requires size > 0
    ensures BuiltFrom(SharedBatch(size), [size, size, size], THREE)
  {
    var q, computed, rows := SharedBatch(size), [size, size, size], THREE;
    BlockNumbers(size);
    SharedOffsets(size);
    forall b | 0 <= b < 3 ensures RowIndexed(q, computed, b) && RowBuilt(q, computed, rows, b) {
      assert b == 0 || b == 1 || b == 2;
    }
  }

  /** Every row runs the token after the first block of the same history. */
  ghost function SharedKernel<S, E, V>(o: Ops<S, E, V>, t: Token<E, V>, size: nat): Kernel<S, E, V> {
    Kernel(o.zero, o.step, o.emit, ScanSplits.FirstOfTwo, [t.u, t.u, t.u], [t.b, t.b, t.b], [t.c, t.c, t.c],
           Layout(1, 3), Layout(1, 3), Layout(1, 3), Layout(1, 3), Layout(1, 3), Layout(2, 1), false, SharedBatch(size))
  }

  /** What a row of the batch needs of its kernel. */
  ghost predicate RowParts<S, E, V>(k: Kernel<S, E, V>, m: Mem<S, E>, b: nat, t: Token<E, V>, size: nat) {
    && Fits(k, m, b, 0) && !Skipped(k.meta, b) && RowReady(k.meta, b, size, 1, 1)
    && TokenAt(k, m, b, 0, 0) == t
  }

  lemma SharedReady(size: nat, b: nat)
    requires size > 0 && b < 2
    ensures RowReady(SharedBatch(size), b, size, 1, 1)
  {
    var q, computed, rows := SharedBatch(size), [size, size, size], THREE;
    SharedIsBuilt(size);
    var f := ScanSplits.ReadyBlock(q, computed, rows, b);
    InBlockOne(size);
    OneBlock(f, 1, size + 1, size);
  }

  lemma InBlockOne(size: nat)
    requires size > 0
    ensures InBlock(1, size + 1, size)
  {
    assert Blocks(0, size) == 0 && Blocks(1, size) == size && Blocks(2, size) == 2 * size;
  }

  /** Row `b` has one token, at position `b`, loads from slot 1 and stores to slot b + 2. */
  ghost predicate OneStep(q: Batch, b: nat) {
    && WellFormed(q) && q.cacheEnabled && q.varlen && b < q.size && 0 < q.dim && q.ratio == 1 && b < 2
    && q.starts[b] == b && SeqLen(q, b) == 1 && LoadSlot(q, b) == 1 && q.nullBlock == -1
    && NumChunks(q, b) == 1 && StoreColumn(q, b, 0) == 1 && q.table[b] == [1, b + 2] && HasInit(q, b)
  }

  lemma SharedOneStep(size: nat, b: nat)
    requires size > 0 && b < 2
    ensures OneStep(SharedBatch(size), b)
  {
    SharedReady(size, b);
  }

  predicate Strides(l: Layout, batch: nat, row: nat) {
    l.batch == batch && l.row == row
  }

  lemma OneStepBase(q: Batch, l: Layout, b: nat)
    requires OneStep(q, b) && Strides(l, 1, 3)
    ensures Base(q, l, b, 0) == b && Base(q, l, b, 0 / q.ratio) == b
  {
  }

  lemma OneStepStores(q: Batch, l: Layout, b: nat, c: nat)
    requires OneStep(q, b) && c < NumChunks(q, b) && Strides(l, 2, 1)
    ensures StoreColumn(q, b, c) < |q.table[b]| && SsmAddr(l, StoreSlot(q, b, c), 0) == 2 * b + 4
    ensures SsmAddr(l, LoadSlot(q, b), 0) == 2
  {
    assert c == 0;
  }

  lemma OneStepFits<S, E, V>(k: Kernel<S, E, V>, m: Mem<S, E>, b: nat)
    requires OneStep(k.meta, b)
    requires |k.u| == |k.bs| == |k.cs| == |m.delta| == 3 && |m.ssm| == 8 && !k.hasZ && Strides(k.ssmLayout, 2, 1)
    requires Strides(k.uLayout, 1, 3) && Strides(k.bLayout, 1, 3) && Strides(k.cLayout, 1, 3)
    requires Strides(k.deltaLayout, 1, 3)
    ensures Fits(k, m, b, 0) && !Skipped(k.meta, b)
    ensures TokenAt(k, m, b, 0, 0) == Token(k.u[b], m.delta[b], k.bs[b], k.cs[b])
  {
    OneStepBase(k.meta, k.uLayout, b);
    OneStepBase(k.meta, k.bLayout, b);
    OneStepBase(k.meta, k.cLayout, b);
    OneStepBase(k.meta, k.deltaLayout, b);
    forall c | 0 <= c < NumChunks(k.meta, b)
      ensures StoreColumn(k.meta, b, c) < |k.meta.table[b]|
      ensures 0 <= SsmAddr(k.ssmLayout, StoreSlot(k.meta, b, c), 0) < |m.ssm|
    {
      OneStepStores(k.meta, k.ssmLayout, b, c);
    }
    OneStepStores(k.meta, k.ssmLayout, b, 0);
  }

  lemma SharedRow<S, E, V>(o: Ops<S, E, V>, t: Token<E, V>, size: nat, m: Mem<S, E>, b: nat)
    requires size > 0 && m.delta == [t.delta, t.delta, t.delta] && |m.ssm| == 8 && b < 2
    ensures RowParts(SharedKernel(o, t, size), m, b, t, size)
  {
    SharedReady(size, b);
    SharedOneStep(size, b);
    OneStepFits(SharedKernel(o, t, size), m, b);
  }

  /** The batch as its launch sees it. */
  ghost predicate ThreeRows(q: Batch, size: nat) {
    && OneStep(q, 0) && OneStep(q, 1) && q.size == 3 && q.dim == 1 && Skipped(q, 2)
    && q.blockSize == size && q.starts[3] == 3 && q.blockLast[0] == q.blockLast[1] == 1
  }

  lemma SharedThreeRows(size: nat)
    requires size > 0
    ensures ThreeRows(SharedBatch(size), size)
  {
    SharedOneStep(size, 0);
    SharedOneStep(size, 1);
  }

  lemma MakeKernel<S, E, V>(o: Ops<S, E, V>, t: Token<E, V>, size: nat, m: Mem<S, E>) returns (k: Kernel<S, E, V>)
    requires size > 0 && m.delta == [t.delta, t.delta, t.delta] && |m.ssm| == 8
    ensures ThreeRows(k.meta, size) && Ops(k.zero, k.step, k.emit) == o && !k.hasZ
    ensures Strides(k.ssmLayout, 2, 1) && Strides(k.deltaLayout, 1, 3)
    ensures RowParts(k, m, 0, t, size) && RowParts(k, m, 1, t, size)
  {
    k := SharedKernel(o, t, size);
    SharedThreeRows(size);
    SharedRow(o, t, size, m, 0);
    SharedRow(o, t, size, m, 1);
  }

  lemma OwnsShared<S, E, V>(k: Kernel<S, E, V>, m: Mem<S, E>, size: nat, b: nat)
    requires ThreeRows(k.meta, size) && Strides(k.ssmLayout, 2, 1) && |m.ssm| == 8 && b < 2
    ensures OwnSlots(k, m, b, 0, k.meta.table[b])
  {
    var slots := k.meta.table[b];
    forall col | 0 <= col < |slots| ensures 0 <= SsmAddr(k.ssmLayout, slots[col], 0) < |m.ssm| {
      assert col == 0 || col == 1;
    }
  }

  lemma OneToken<S, E, V>(o: Ops<S, E, V>, h: seq<Token<E, V>>, slots: seq<int>, size: nat, k: Kernel<S, E, V>,
                          m: Mem<S, E>, b: nat)
    requires |h| == size + 1 && RowParts(k, m, b, h[size], size) && Ops(k.zero, k.step, k.emit) == o
    requires OwnSlots(k, m, b, 0, slots)
    ensures ValidCall(o, 0, h, slots, size, 1, 1, k, m, b)
  {
  }

  lemma SharedHolds<S, E, V>(o: Ops<S, E, V>, h: seq<Token<E, V>>, size: nat, cells: seq<S>)
    requires size > 0 && |h| == size + 1 && |cells| == 2 && cells[0] == Plain(o, 0, h, size)
    ensures Holds(o, 0, h, size, size, cells)
  {
    assert Blocks(0, size) == 0 && Blocks(1, size) == size && Blocks(2, size) == 2 * size;
    forall col: nat | InBlock(col, size, size) ensures col == 0 {
      OneBlock(0, col, size, size);
    }
  }

  lemma StoresOne(q: Batch, b: nat, c: nat, slot: int)
    requires OneStep(q, b) && RowStores(q, b, c, slot)
    ensures slot == b + 2
  {
    assert c == 0;
  }

  lemma SharedKeptOff(q: Batch, size: nat, b: nat)
    requires ThreeRows(q, size) && b < 2
    ensures KeptOff(q, b, q.table[b])
  {
    forall b': nat, c: nat, slot: int | RowStores(q, b', c, slot) && b' != b ensures slot !in q.table[b] {
      assert b' < 2;
      StoresOne(q, b', c, slot);
    }
  }

  lemma RowReadyAt<S, E, V>(o: Ops<S, E, V>, h: seq<Token<E, V>>, size: nat, k: Kernel<S, E, V>, m: Mem<S, E>,
                            rs: seq<Request<E, V>>, b: nat)
    requires size > 0 && |h| == size + 1 && b < 2 <= |rs| && RowParts(k, m, b, h[size], size)
    requires ThreeRows(k.meta, size) && Strides(k.ssmLayout, 2, 1)
    requires Ops(k.zero, k.step, k.emit) == o && |m.ssm| == 8 && m.ssm[2] == Plain(o, 0, h, size)
    requires rs[b] == Request([h], k.meta.table[b], size, 1, 1)
    ensures ReadyAt(o, k, m, rs, b, 0)
  {
    var slots := k.meta.table[b];
    OwnsShared(k, m, size, b);
    OneToken(o, h, slots, size, k, m, b);
    assert SsmAddr(k.ssmLayout, slots[0], 0) == 2;
    SharedHolds(o, h, size, Cells(k.ssmLayout, m.ssm, slots, 0));
  }

  /** The batch is ready, whatever the slots of the unfinished blocks hold: two rows resume from one
      cached block, and the third is skipped. */
  lemma SharedIsReady<S, E, V>(o: Ops<S, E, V>, h: seq<Token<E, V>>, size: nat, x: S, y: S)
    returns (k: Kernel<S, E, V>, m: Mem<S, E>, rs: seq<Request<E, V>>)
    requires size > 0 && |h| == size + 1
    ensures Ready(o, k, m, rs) && DenseStates(k.meta, k.ssmLayout) && Contiguous(k.meta, k.deltaLayout) && !k.hasZ
    ensures k.meta.size == 3 && NullRow(k.meta, 2) && !NullRow(k.meta, 0) && !NullRow(k.meta, 1)
    ensures HasInit(k.meta, 0) && HasInit(k.meta, 1) && LoadSlot(k.meta, 0) == LoadSlot(k.meta, 1)
  {
    var t := h[size];
    m := Mem([t.delta, t.delta, t.delta], [], [o.zero, o.zero, Plain(o, 0, h, size), o.zero, x, o.zero, y, o.zero]);
    k := MakeKernel(o, t, size, m);
    rs := ThreeReady(o, h, size, k, m);
  }

  lemma ThreeReady<S, E, V>(o: Ops<S, E, V>, h: seq<Token<E, V>>, size: nat, k: Kernel<S, E, V>, m: Mem<S, E>)
    returns (rs: seq<Request<E, V>>)
    requires size > 0 && |h| == size + 1 && ThreeRows(k.meta, size) && Strides(k.ssmLayout, 2, 1)
    requires RowParts(k, m, 0, h[size], size) && RowParts(k, m, 1, h[size], size)
    requires Ops(k.zero, k.step, k.emit) == o && |m.ssm| == 8 && m.ssm[2] == Plain(o, 0, h, size)
    ensures Ready(o, k, m, rs)
  {
    rs := seq(3, b requires 0 <= b < 3 => Request([h], k.meta.table[b], size, 1, 1));
    RowReadyAt(o, h, size, k, m, rs, 0);
    RowReadyAt(o, h, size, k, m, rs, 1);
    SharedKeptOff(k.meta, size, 0);
    SharedKeptOff(k.meta, size, 1);
    RowsReady(o, k, m, rs);
  }

  lemma RowsReady<S, E, V>(o: Ops<S, E, V>, k: Kernel<S, E, V>, m: Mem<S, E>, rs: seq<Request<E, V>>)
    requires WellFormed(k.meta) && |rs| == k.meta.size == 3 && k.meta.dim == 1 && NullRow(k.meta, 2)
    requires ReadyAt(o, k, m, rs, 0, 0) && ReadyAt(o, k, m, rs, 1, 0)
    requires KeptOff(k.meta, 0, rs[0].slots) && KeptOff(k.meta, 1, rs[1].slots)
    ensures Ready(o, k, m, rs)
  {
    forall b, d | 0 <= b < k.meta.size && 0 <= d < k.meta.dim
      ensures NullRow(k.meta, b) || ReadyAt(o, k, m, rs, b, d)
    {
      assert d == 0 && (b == 0 || b == 1 || b == 2);
    }
    forall b | 0 <= b < k.meta.size ensures NullRow(k.meta, b) || KeptOff(k.meta, b, rs[b].slots) {
      assert b == 0 || b == 1 || b == 2;
    }
  }
}
