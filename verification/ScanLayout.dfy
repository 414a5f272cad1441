/** When the strides the launcher passes keep the programs of a grid apart. */
module ScanLayout {
  import opened ScanKernel
  import opened ScanGrid

  // ----- mixed-radix addresses

  lemma {:induction false} StepsApart(i: int, j: int, width: nat, x: nat)
    requires i < j && x <= width
    ensures i * width + x <= j * width
    decreases j - i
  {
    assert j * width == (j - 1) * width + width;
    if i < j - 1 {
      StepsApart(i, j - 1, width, x);
    }
  }

  /** The strides of a tensor with unit innermost stride whose rows do not overlap. */
  ghost predicate Contiguous(q: Batch, l: Layout)
    requires WellFormed(q)
  {
    if q.varlen then l.batch == 1 && q.starts[q.size] <= l.row
    else (q.seqlen <= l.row && q.dim * l.row <= l.batch) || (q.seqlen <= l.batch && q.size * l.batch <= l.row)
  }

  lemma VarlenCellsApart(q: Batch, l: Layout, p: Program, r: Program)
    requires WellFormed(q) && Contiguous(q, l) && q.varlen
    requires InGrid(q, p) && InGrid(q, r) && p != r && (p.d < r.d || (p.d == r.d && p.b < r.b))
    ensures Base(q, l, p.b, p.d) + SeqLen(q, p.b) <= Base(q, l, r.b, r.d)
  {
    if p.d < r.d {
      StepsApart(p.d, r.d, l.row, q.starts[p.b + 1]);
    }
  }

  lemma FixedCellsApart(q: Batch, l: Layout, p: Program, r: Program)
    requires WellFormed(q) && Contiguous(q, l) && !q.varlen
    requires InGrid(q, p) && InGrid(q, r) && p != r
    ensures Base(q, l, p.b, p.d) + q.seqlen <= Base(q, l, r.b, r.d)
         || Base(q, l, r.b, r.d) + q.seqlen <= Base(q, l, p.b, p.d)
  {
    if q.seqlen <= l.row && q.dim * l.row <= l.batch {
      NestedApart(p.b, p.d, r.b, r.d, q.dim, l.batch, l.row, q.seqlen);
    } else {
      NestedApart(p.d, p.b, r.d, r.b, q.size, l.row, l.batch, q.seqlen);
    }
  }

  /** Intervals of length `n` at outer * wide + inner * narrow are disjoint. */
  lemma NestedApart(o: nat, i: nat, o': nat, i': nat, inners: nat, wide: nat, narrow: nat, n: nat)
    requires i < inners && i' < inners && n <= narrow && inners * narrow <= wide
    requires o != o' || i != i'
    ensures o * wide + i * narrow + n <= o' * wide + i' * narrow
         || o' * wide + i' * narrow + n <= o * wide + i * narrow
  {
    StepsApart(i, inners, narrow, n);
    StepsApart(i', inners, narrow, n);
    if o < o' {
      StepsApart(o, o', wide, i * narrow + n);
    } else if o' < o {
      StepsApart(o', o, wide, i' * narrow + n);
    } else if i < i' {
      StepsApart(i, i', narrow, n);
    } else {
      StepsApart(i', i, narrow, n);
    }
  }

  lemma CellsApart(q: Batch, l: Layout, p: Program, r: Program, a: int)
    requires WellFormed(q) && Contiguous(q, l)
    requires InGrid(q, p) && InGrid(q, r) && p != r
    requires Base(q, l, p.b, p.d) <= a < Base(q, l, p.b, p.d) + SeqLen(q, p.b)
    ensures !(Base(q, l, r.b, r.d) <= a < Base(q, l, r.b, r.d) + SeqLen(q, r.b))
  {
    if q.varlen {
      if p.d < r.d || (p.d == r.d && p.b < r.b) {
        VarlenCellsApart(q, l, p, r);
      } else {
        VarlenCellsApart(q, l, r, p);
      }
    } else {
      FixedCellsApart(q, l, p, r);
    }
  }

  // ----- the state cache

  /** Distinct (slot, dim) pairs have distinct state vectors. */
  ghost predicate DenseStates(q: Batch, l: Layout) {
    1 <= l.row && q.dim * l.row <= l.batch
  }

  lemma SameAddress(q: Batch, l: Layout, s: int, d: nat, s': int, d': nat)
    requires DenseStates(q, l) && d < q.dim && d' < q.dim
    requires SsmAddr(l, s, d) == SsmAddr(l, s', d')
    ensures s == s' && d == d'
  {
    StepsApart(d, q.dim, l.row, 1);
    StepsApart(d', q.dim, l.row, 1);
    if s < s' {
      StepsApart(s, s', l.batch, d * l.row + 1);
    } else if s' < s {
      StepsApart(s', s, l.batch, d' * l.row + 1);
    } else if d < d' {
      StepsApart(d, d', l.row, 1);
    } else if d' < d {
      StepsApart(d', d, l.row, 1);
    }
  }

  /** `slot` is stored to by chunk `c` of row `b`. */
  ghost predicate RowStores(q: Batch, b: nat, c: nat, slot: int)
    requires WellFormed(q)
  {
    && b < q.size && !Skipped(q, b) && c < NumChunks(q, b)
    && (q.cacheEnabled ==> StoreColumn(q, b, c) < |q.table[b]|)
    && slot == StoreSlot(q, b, c)
  }

  /** No row stores to a slot that another row stores to or loads from. Shared load slots,
      as when two requests hit the same cached prefix, are allowed. */
  ghost predicate StoresPrivate(q: Batch)
    requires WellFormed(q)
  {
    forall b: nat, c: nat, slot: int, b': nat ::
      RowStores(q, b, c, slot) && b' < q.size && b' != b && !Skipped(q, b') ==>
        && (forall c': nat :: !RowStores(q, b', c', slot))
        && (HasInit(q, b') ==> slot != LoadSlot(q, b'))
  }

  lemma StatesApart<S, E, V>(k: Kernel<S, E, V>, p: Program, r: Program, a: int)
    requires WellFormed(k.meta) && DenseStates(k.meta, k.ssmLayout) && StoresPrivate(k.meta)
    requires InGrid(k.meta, p) && InGrid(k.meta, r) && p != r
    requires SsmWrite(k, p, a)
    ensures !SsmWrite(k, r, a) && !SsmRead(k, r, a)
  {
    var q, l := k.meta, k.ssmLayout;
    var c: nat :| StoresAt(k, p, c, a);
    var slot := StoreSlot(q, p.b, c);
    assert RowStores(q, p.b, c, slot);
    if SsmRead(k, r, a) {
      SameAddress(q, l, slot, p.d, LoadSlot(q, r.b), r.d);
      assert false;
    }
    if SsmWrite(k, r, a) {
      var c': nat :| StoresAt(k, r, c', a);
      SameAddress(q, l, slot, p.d, StoreSlot(q, r.b, c'), r.d);
      assert RowStores(q, r.b, c', slot);
      assert false;
    }
  }

  /** The launcher's tensors separate the grid: the only thing left to the caller is that
      batch rows do not store to one another's slots. */
  lemma LauncherSeparates<S, E, V>(k: Kernel<S, E, V>)
    requires WellFormed(k.meta)
    requires Contiguous(k.meta, k.deltaLayout) && (k.hasZ ==> Contiguous(k.meta, k.zLayout))
    requires DenseStates(k.meta, k.ssmLayout) && StoresPrivate(k.meta)
    ensures Separate(k)
  {
    forall p: Program, r: Program | InGrid(k.meta, p) && InGrid(k.meta, r) && p != r
      ensures Independent(k, p, r)
    {
      forall a: int
        ensures !(DeltaCell(k, p, a) && DeltaCell(k, r, a))
        ensures !(ZCell(k, p, a) && ZCell(k, r, a))
        ensures !(SsmWrite(k, p, a) && (SsmWrite(k, r, a) || SsmRead(k, r, a)))
      {
        if DeltaCell(k, p, a) {
          CellsApart(k.meta, k.deltaLayout, p, r, a);
        }
        if ZCell(k, p, a) {
          CellsApart(k.meta, k.zLayout, p, r, a);
        }
        if SsmWrite(k, p, a) {
          StatesApart(k, p, r, a);
        }
      }
    }
  }

  // ----- which elements of the tensors a program reads

  /** The element of a tensor that holds token `pos` of row `b`: tensors are indexed by row and token in
      variable-length mode, where the rows of the batch lie one after the other, and else by batch, row and
      token, with the tokens next to each other. */
  function TensorAddr(q: Batch, l: Layout, b: nat, row: nat, pos: nat): nat
    requires WellFormed(q) && b < q.size
  {
    if q.varlen then row * l.row + (q.starts[b] + pos) * l.batch else b * l.batch + row * l.row + pos
  }

  /** The kernel finds the first token of a row with the strides it was passed. */
  lemma FirstTokenFound(q: Batch, l: Layout, b: nat, row: nat)
    requires WellFormed(q) && b < q.size
    ensures Base(q, l, b, row) == TensorAddr(q, l, b, row, 0)
  {
  }

  /** It then steps through the sequence with stride 1, whatever stride it was passed: in variable-length mode it
      reads the tensor's own tokens exactly when that stride is 1. */
  lemma InnermostStrideMustBeOne(q: Batch, l: Layout, b: nat, row: nat)
    requires WellFormed(q) && q.varlen && b < q.size && SeqLen(q, b) >= 2
    ensures Base(q, l, b, row) == TensorAddr(q, l, b, row, 0)
    ensures (forall pos: nat :: pos < SeqLen(q, b) ==>
               Base(q, l, b, row) + pos == TensorAddr(q, l, b, row, pos))
       <==> l.batch == 1
  {
    FirstTokenFound(q, l, b, row);
    if l.batch != 1 {
      assert (SeqStart(q, b) + 1) * l.batch == SeqStart(q, b) * l.batch + l.batch;
      assert Base(q, l, b, row) + 1 != TensorAddr(q, l, b, row, 1);
    }
  }

  /** Neighbouring tokens are neighbouring elements. */
  predicate UnitStride(q: Batch, l: Layout) {
    q.varlen ==> l.batch == 1
  }

  lemma AddressIs(q: Batch, l: Layout, b: nat, row: nat, pos: nat)
    requires WellFormed(q) && b < q.size && UnitStride(q, l)
    ensures Base(q, l, b, row) + pos == TensorAddr(q, l, b, row, pos)
  {
  }

  /** Dimension `d` belongs to group `g`: groups are runs of `ratio` dimensions. */
  predicate InGroup(q: Batch, d: nat, g: nat) {
    g * q.ratio <= d < g * q.ratio + q.ratio
  }

  lemma InOwnGroup(q: Batch, d: nat)
    requires 1 <= q.ratio
    ensures InGroup(q, d, d / q.ratio)
  {
    assert d == d / q.ratio * q.ratio + d % q.ratio;
  }

  lemma GroupIs(q: Batch, d: nat, g: nat)
    requires 1 <= q.ratio && InGroup(q, d, g)
    ensures d / q.ratio == g
  {
    var h := d / q.ratio;
    assert d == h * q.ratio + d % q.ratio;
    if h < g {
      StepsApart(h, g, q.ratio, q.ratio);
    } else if g < h {
      StepsApart(g, h, q.ratio, q.ratio);
    }
  }

  /** The tensors hold token `t` at position `pos` of row `b` and dimension `d`. */
  ghost predicate InTensors<S, E, V>(k: Kernel<S, E, V>, m: Mem<S, E>, b: nat, d: nat, g: nat, pos: nat, t: Token<E, V>)
    requires WellFormed(k.meta) && b < k.meta.size
  {
    var u, delta := TensorAddr(k.meta, k.uLayout, b, d, pos), TensorAddr(k.meta, k.deltaLayout, b, d, pos);
    var bAt, cAt := TensorAddr(k.meta, k.bLayout, b, g, pos), TensorAddr(k.meta, k.cLayout, b, g, pos);
    && u < |k.u| && delta < |m.delta| && bAt < |k.bs| && cAt < |k.cs|
    && t == Token(k.u[u], m.delta[delta], k.bs[bAt], k.cs[cAt])
  }

  /** Program (b, d) reads its own tokens: those of row `b`, `u` and `delta` in its dimension, B and C in its
      group. */
  lemma ReadsTensors<S, E, V>(k: Kernel<S, E, V>, m: Mem<S, E>, b: nat, d: nat, g: nat, pos: nat)
    requires Fits(k, m, b, d) && !Skipped(k.meta, b) && pos < SeqLen(k.meta, b) && InGroup(k.meta, d, g)
    requires UnitStride(k.meta, k.uLayout) && UnitStride(k.meta, k.deltaLayout)
    requires UnitStride(k.meta, k.bLayout) && UnitStride(k.meta, k.cLayout)
    ensures InTensors(k, m, b, d, g, pos, TokenAt(k, m, b, d, pos))
  {
    GroupIs(k.meta, d, g);
    AddressIs(k.meta, k.uLayout, b, d, pos);
    AddressIs(k.meta, k.deltaLayout, b, d, pos);
    AddressIs(k.meta, k.bLayout, b, g, pos);
    AddressIs(k.meta, k.cLayout, b, g, pos);
  }
}
