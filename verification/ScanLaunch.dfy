/** A whole launch: after the grid has run in place over real arrays, in any order, every row and
    dimension of the batch has the outputs of an uninterrupted scan and a cache that is right again. */
module ScanLaunch {
  import opened ScanKernel
  import opened ScanGrid
  import opened ScanLayout
  import opened ScanSchedule
  import opened ScanCache
  import opened ScanRuns
  import ScanSplits

  // ----- the slots of one request after the launch

  /** No other row stores to these slots. Other rows may load from them. */
  ghost predicate KeptOff(q: Batch, b: nat, slots: seq<int>)
    requires WellFormed(q)
  {
    forall b': nat, c: nat, slot: int :: RowStores(q, b', c, slot) && b' != b ==> slot !in slots
  }

  lemma OthersDoNotWrite<S, E, V>(k: Kernel<S, E, V>, p: Program, slots: seq<int>, col: nat, r: Program)
    requires WellFormed(k.meta) && DenseStates(k.meta, k.ssmLayout) && KeptOff(k.meta, p.b, slots)
    requires InGrid(k.meta, p) && InGrid(k.meta, r) && r != p && col < |slots|
    ensures !SsmWrite(k, r, SsmAddr(k.ssmLayout, slots[col], p.d))
  {
    var a := SsmAddr(k.ssmLayout, slots[col], p.d);
    forall c: nat ensures !StoresAt(k, r, c, a) {
      if StoresAt(k, r, c, a) {
        var slot := StoreSlot(k.meta, r.b, c);
        assert RowStores(k.meta, r.b, c, slot);
        SameAddress(k.meta, k.ssmLayout, slot, r.d, slots[col], p.d);
        assert false;
      }
    }
  }

  lemma CellAfterLaunch<S, E, V>(k: Kernel<S, E, V>, m0: Mem<S, E>, progs: set<Program>, m: Mem<S, E>, p: Program,
                                 slots: seq<int>, col: nat)
    requires GridFits(k, m0) && Programs(k, progs) && SameShape(m0, m) && SsmOutOfPlace(k, m0, progs, m) && p in progs
    requires DenseStates(k.meta, k.ssmLayout) && KeptOff(k.meta, p.b, slots)
    requires ValidSlots(k.ssmLayout, m0.ssm, slots, p.d) && col < |slots| && Fits(k, m0, p.b, p.d)
    ensures var a := SsmAddr(k.ssmLayout, slots[col], p.d);
            0 <= a < |m.ssm| && m.ssm[a] == Effect(k, m0, p.b, p.d).ssm[a]
  {
    var a := SsmAddr(k.ssmLayout, slots[col], p.d);
    if !SsmWrite(k, p, a) {
      EffectFrame(k, m0, p);
      forall r | r in progs ensures !SsmWrite(k, r, a) {
        if r != p {
          OthersDoNotWrite(k, p, slots, col, r);
        }
      }
    }
  }

  /** What a launch leaves in the request's slots is what its own program leaves there. */
  lemma CellsAfterLaunch<S, E, V>(k: Kernel<S, E, V>, m0: Mem<S, E>, progs: set<Program>, m: Mem<S, E>, p: Program,
                                  slots: seq<int>)
    requires GridFits(k, m0) && Programs(k, progs) && OutOfPlace(k, m0, progs, m) && p in progs
    requires DenseStates(k.meta, k.ssmLayout) && KeptOff(k.meta, p.b, slots)
    requires ValidSlots(k.ssmLayout, m0.ssm, slots, p.d) && Fits(k, m0, p.b, p.d)
    ensures ValidSlots(k.ssmLayout, m.ssm, slots, p.d)
    ensures ValidSlots(k.ssmLayout, Effect(k, m0, p.b, p.d).ssm, slots, p.d)
    ensures Cells(k.ssmLayout, m.ssm, slots, p.d) == Cells(k.ssmLayout, Effect(k, m0, p.b, p.d).ssm, slots, p.d)
  {
    var after := Effect(k, m0, p.b, p.d).ssm;
    forall col | 0 <= col < |slots|
      ensures var a := SsmAddr(k.ssmLayout, slots[col], p.d); 0 <= a < |m.ssm| && m.ssm[a] == after[a]
    {
      CellAfterLaunch(k, m0, progs, m, p, slots, col);
    }
    assert Cells(k.ssmLayout, m.ssm, slots, p.d) == Cells(k.ssmLayout, after, slots, p.d);
  }

  // ----- one row and dimension

  /** Token `pos` of row `b` has the output of the uninterrupted scan. */
  ghost predicate OutputIs<S, E, V>(o: Ops<S, E, V>, d: nat, h: seq<Token<E, V>>, computed: nat, k: Kernel<S, E, V>,
                                    b: nat,
                                    delta: seq<E>, pos: nat)
    requires WellFormed(k.meta) && b < k.meta.size
  {
    var a := Base(k.meta, k.deltaLayout, b, d) + pos;
    a < |delta| && computed + pos < |h| && delta[a] == PlainOut(o, d, h, computed + pos)
  }

  ghost predicate OutputsAre<S, E, V>(o: Ops<S, E, V>, d: nat, h: seq<Token<E, V>>, computed: nat, scheduled: nat,
                                      k: Kernel<S, E, V>, b: nat, delta: seq<E>)
  {
    && WellFormed(k.meta) && b < k.meta.size
    && (forall pos :: 0 <= pos < scheduled ==> OutputIs(o, d, h, computed, k, b, delta, pos))
  }

  /** The recurrence of the program itself gives that output. */
  ghost predicate AgreesAt<S, E, V>(o: Ops<S, E, V>, d: nat, h: seq<Token<E, V>>, computed: nat, k: Kernel<S, E, V>,
                                    m: Mem<S, E>, b: nat, pos: nat)
    requires Fits(k, m, b, d) && !Skipped(k.meta, b) && pos < SeqLen(k.meta, b)
  {
    computed + pos < |h| && OutAt(k, m, b, d, pos) == PlainOut(o, d, h, computed + pos)
  }

  lemma CallAgrees<S, E, V>(o: Ops<S, E, V>, d: nat, h: seq<Token<E, V>>, slots: seq<int>,
                            computed: nat, scheduled: nat, f: nat, k: Kernel<S, E, V>, m: Mem<S, E>, b: nat)
    requires ValidCall(o, d, h, slots, computed, scheduled, f, k, m, b)
    requires Holds(o, d, h, k.meta.blockSize, computed, Cells(k.ssmLayout, m.ssm, slots, d))
    ensures forall pos :: 0 <= pos < SeqLen(k.meta, b) ==> AgreesAt(o, d, h, computed, k, m, b, pos)
  {
    forall pos | 0 <= pos < SeqLen(k.meta, b) ensures AgreesAt(o, d, h, computed, k, m, b, pos) {
      CallOutputs(o, d, h, slots, computed, scheduled, f, k, m, b, pos);
    }
  }

  /** After the launch the output is in the array. */
  lemma LaunchOutputs<S, E, V>(o: Ops<S, E, V>, d: nat, h: seq<Token<E, V>>, computed: nat, k: Kernel<S, E, V>,
                               m0: Mem<S, E>, b: nat, progs: set<Program>, m: Mem<S, E>)
    requires GridFits(k, m0) && Programs(k, progs) && SameShape(m0, m) && DeltaOutOfPlace(k, m0, progs, m)
    requires Program(b, d) in progs && Fits(k, m0, b, d) && !Skipped(k.meta, b)
    requires forall pos :: 0 <= pos < SeqLen(k.meta, b) ==> AgreesAt(o, d, h, computed, k, m0, b, pos)
    ensures SeqLen(k.meta, b) >= 0 ==> OutputsAre(o, d, h, computed, SeqLen(k.meta, b), k, b, m.delta)
  {
    forall pos: nat | pos < SeqLen(k.meta, b) ensures OutputIs(o, d, h, computed, k, b, m.delta, pos) {
      assert AgreesAt(o, d, h, computed, k, m0, b, pos);
      OutputsOf(k, m0, progs, m, Program(b, d), pos);
    }
  }

  lemma LaunchLeaves<S, E, V>(o: Ops<S, E, V>, d: nat, h: seq<Token<E, V>>, slots: seq<int>,
                              computed: nat, scheduled: nat, f: nat, k: Kernel<S, E, V>, m0: Mem<S, E>, b: nat,
                              progs: set<Program>, m: Mem<S, E>)
    requires GridFits(k, m0) && Programs(k, progs) && OutOfPlace(k, m0, progs, m) && Program(b, d) in progs
    requires ValidCall(o, d, h, slots, computed, scheduled, f, k, m0, b) && KeptOff(k.meta, b, slots)
    requires Holds(o, d, h, k.meta.blockSize, computed, Cells(k.ssmLayout, m0.ssm, slots, d))
    ensures ValidSlots(k.ssmLayout, m.ssm, slots, d)
    ensures Holds(o, d, h, k.meta.blockSize, computed + scheduled, Cells(k.ssmLayout, m.ssm, slots, d))
  {
    CellsAfterLaunch(k, m0, progs, m, Program(b, d), slots);
    CallLeaves(o, d, h, slots, computed, scheduled, f, k, m0, b);
  }

  /** A row of a batch that the metadata builder made can be run, if its tokens are in place and it
      owns its blocks. */
  lemma BuiltIsValid<S, E, V>(o: Ops<S, E, V>, d: nat, h: seq<Token<E, V>>, slots: seq<int>, computed: seq<nat>,
                              rows: seq<seq<nat>>, k: Kernel<S, E, V>, m: Mem<S, E>, b: nat)
    requires BuiltFrom(k.meta, computed, rows) && Fits(k, m, b, d) && !Skipped(k.meta, b)
    requires Ops(k.zero, k.step, k.emit) == o && OwnSlots(k, m, b, d, slots)
    requires var n := NewTokens(computed, k.meta.starts, b);
             && computed[b] + n <= |h| && SeqLen(k.meta, b) == n
             && (forall pos :: 0 <= pos < n ==> TokenAt(k, m, b, d, pos) == h[computed[b] + pos])
    ensures ValidCall(o, d, h, slots, computed[b], NewTokens(computed, k.meta.starts, b),
                      computed[b] / k.meta.blockSize, k, m, b)
  {
    BuiltIsReady(k.meta, computed, rows, b);
  }

  // ----- the whole batch

  /** One row of the batch: its tokens for each dimension, its blocks, and what is scheduled. */
  datatype Request<!E, !V> = Request(histories: seq<seq<Token<E, V>>>, slots: seq<int>, computed: nat,
                                     scheduled: nat, block: nat)

  ghost predicate ReadyAt<S, E, V>(o: Ops<S, E, V>, k: Kernel<S, E, V>, m: Mem<S, E>, rs: seq<Request<E, V>>, b: nat,
                                   d: nat)
    requires b < |rs|
  {
    var r := rs[b];
    && d < |r.histories|
    && ValidCall(o, d, r.histories[d], r.slots, r.computed, r.scheduled, r.block, k, m, b)
    && Holds(o, d, r.histories[d], k.meta.blockSize, r.computed, Cells(k.ssmLayout, m.ssm, r.slots, d))
  }

  /** The block that row `b` is to load its state from is the null block. */
  predicate NullRow(q: Batch, b: nat)
    requires WellFormed(q) && b < q.size
  {
    if q.cacheEnabled then q.table[b][q.initIdx[b]] == q.nullBlock
    else q.hasCacheIndices && q.table[b][0] == q.nullBlock
  }

  lemma NullIsSkipped(q: Batch, b: nat)
    requires WellFormed(q) && b < q.size
    ensures NullRow(q, b) <==> Skipped(q, b)
  {
  }

  /** Every row that is not null finds its tokens and a right cache, and no row stores to a slot that
      another uses. */
  ghost predicate Ready<S, E, V>(o: Ops<S, E, V>, k: Kernel<S, E, V>, m: Mem<S, E>, rs: seq<Request<E, V>>) {
    && WellFormed(k.meta) && |rs| == k.meta.size
    && (forall b, d :: 0 <= b < k.meta.size && 0 <= d < k.meta.dim ==>
          NullRow(k.meta, b) || ReadyAt(o, k, m, rs, b, d))
    && (forall b :: 0 <= b < k.meta.size ==> NullRow(k.meta, b) || KeptOff(k.meta, b, rs[b].slots))
  }

  ghost predicate ServedAt<S, E, V>(o: Ops<S, E, V>, k: Kernel<S, E, V>, rs: seq<Request<E, V>>, b: nat, d: nat,
                                    m: Mem<S, E>)
    requires b < |rs|
  {
    var r := rs[b];
    && d < |r.histories|
    && OutputsAre(o, d, r.histories[d], r.computed, r.scheduled, k, b, m.delta)
    && ValidSlots(k.ssmLayout, m.ssm, r.slots, d)
    && Holds(o, d, r.histories[d], k.meta.blockSize, r.computed + r.scheduled, Cells(k.ssmLayout, m.ssm, r.slots, d))
  }

  /** Token `pos` of a row is as it was. */
  ghost predicate SameAt<E>(q: Batch, l: Layout, b: nat, d: nat, before: seq<E>, after: seq<E>, pos: nat)
    requires WellFormed(q) && b < q.size
  {
    var a := Base(q, l, b, d) + pos;
    |after| == |before| && (a < |before| ==> after[a] == before[a])
  }

  /** The tokens of a row are as they were. */
  ghost predicate LeftAlone<S, E, V>(k: Kernel<S, E, V>, b: nat, d: nat, before: seq<E>, after: seq<E>)
    requires WellFormed(k.meta) && b < k.meta.size
  {
    forall pos: nat :: pos < SeqLen(k.meta, b) ==> SameAt(k.meta, k.deltaLayout, b, d, before, after, pos)
  }

  /** Every row that is not null has, in every dimension, the outputs of its uninterrupted scan and a
      right cache again; a null row is left alone. */
  ghost predicate Served<S, E, V>(o: Ops<S, E, V>, k: Kernel<S, E, V>, rs: seq<Request<E, V>>, m0: Mem<S, E>,
                                  m: Mem<S, E>) {
    && WellFormed(k.meta) && |rs| == k.meta.size
    && (forall b, d :: 0 <= b < k.meta.size && 0 <= d < k.meta.dim ==>
          if NullRow(k.meta, b) then LeftAlone(k, b, d, m0.delta, m.delta) else ServedAt(o, k, rs, b, d, m))
  }

  lemma ReadyFits<S, E, V>(o: Ops<S, E, V>, k: Kernel<S, E, V>, m: Mem<S, E>, rs: seq<Request<E, V>>)
    requires Ready(o, k, m, rs)
    ensures GridFits(k, m)
  {
    forall p: Program | InGrid(k.meta, p) ensures Fits(k, m, p.b, p.d) {
      NullIsSkipped(k.meta, p.b);
      assert NullRow(k.meta, p.b) || ReadyAt(o, k, m, rs, p.b, p.d);
    }
  }

  /** A row stores to, and loads its initial state from, slots of its own request. */
  lemma StoresOwn<S, E, V>(o: Ops<S, E, V>, d: nat, h: seq<Token<E, V>>, slots: seq<int>, computed: nat, scheduled: nat,
                           f: nat, k: Kernel<S, E, V>, m: Mem<S, E>, b: nat)
    requires ValidCall(o, d, h, slots, computed, scheduled, f, k, m, b)
    ensures forall c: nat, slot: int :: RowStores(k.meta, b, c, slot) ==> slot in slots
    ensures HasInit(k.meta, b) ==> LoadSlot(k.meta, b) in slots
  {
    var q := k.meta;
    forall c: nat, slot: int | RowStores(q, b, c, slot) ensures slot in slots {
      assert StoreColumn(q, b, c) == f + c;
      assert slots[StoreColumn(q, b, c)] == q.table[b][StoreColumn(q, b, c)];
    }
    if HasInit(q, b) {
      BlockOrder(q.initIdx[b], q.blockLast[b], computed, computed + scheduled, q.blockSize);
      assert slots[q.initIdx[b]] == q.table[b][q.initIdx[b]];
    }
  }

  lemma ReadyIsPrivate<S, E, V>(o: Ops<S, E, V>, k: Kernel<S, E, V>, m: Mem<S, E>, rs: seq<Request<E, V>>)
    requires Ready(o, k, m, rs) && k.meta.dim > 0
    ensures StoresPrivate(k.meta)
  {
    var q := k.meta;
    forall b: nat, c: nat, slot: int, b': nat | RowStores(q, b, c, slot) && b' < q.size && b' != b && !Skipped(q, b')
      ensures (forall c': nat :: !RowStores(q, b', c', slot)) && (HasInit(q, b') ==> slot != LoadSlot(q, b'))
    {
      NullIsSkipped(q, b);
      NullIsSkipped(q, b');
      assert ReadyAt(o, k, m, rs, b, 0) && ReadyAt(o, k, m, rs, b', 0);
      assert KeptOff(q, b, rs[b].slots) && KeptOff(q, b', rs[b'].slots);
      StoresOwn(o, 0, rs[b].histories[0], rs[b].slots, rs[b].computed, rs[b].scheduled, rs[b].block, k, m, b);
      StoresOwn(o, 0, rs[b'].histories[0], rs[b'].slots, rs[b'].computed, rs[b'].scheduled, rs[b'].block, k, m, b');
    }
  }

  /** With contiguous tensors the programs of a ready batch are independent. */
  lemma ReadySeparates<S, E, V>(o: Ops<S, E, V>, k: Kernel<S, E, V>, m: Mem<S, E>, rs: seq<Request<E, V>>)
    requires Ready(o, k, m, rs) && DenseStates(k.meta, k.ssmLayout)
    requires Contiguous(k.meta, k.deltaLayout) && (k.hasZ ==> Contiguous(k.meta, k.zLayout))
    ensures Separate(k)
  {
    if k.meta.dim > 0 {
      ReadyIsPrivate(o, k, m, rs);
      LauncherSeparates(k);
    }
  }

  lemma RowIsServed<S, E, V>(o: Ops<S, E, V>, k: Kernel<S, E, V>, m0: Mem<S, E>, rs: seq<Request<E, V>>,
                             progs: set<Program>, m: Mem<S, E>, b: nat, d: nat)
    requires GridFits(k, m0) && Programs(k, progs) && OutOfPlace(k, m0, progs, m) && Program(b, d) in progs
    requires b < |rs| && ReadyAt(o, k, m0, rs, b, d) && KeptOff(k.meta, b, rs[b].slots)
    ensures ServedAt(o, k, rs, b, d, m)
  {
    var r := rs[b];
    LaunchLeaves(o, d, r.histories[d], r.slots, r.computed, r.scheduled, r.block, k, m0, b, progs, m);
    CallAgrees(o, d, r.histories[d], r.slots, r.computed, r.scheduled, r.block, k, m0, b);
    LaunchOutputs(o, d, r.histories[d], r.computed, k, m0, b, progs, m);
  }

  /** A null row's tokens are in no other program's cells. */
  lemma SkippedIsLeftAlone<S, E, V>(k: Kernel<S, E, V>, m0: Mem<S, E>, progs: set<Program>, m: Mem<S, E>, b: nat,
                                    d: nat)
    requires GridFits(k, m0) && Programs(k, progs) && SameShape(m0, m) && DeltaOutOfPlace(k, m0, progs, m)
    requires Contiguous(k.meta, k.deltaLayout) && InGrid(k.meta, Program(b, d)) && NullRow(k.meta, b)
    ensures LeftAlone(k, b, d, m0.delta, m.delta)
  {
    NullIsSkipped(k.meta, b);
    forall pos: nat | pos < SeqLen(k.meta, b) ensures SameAt(k.meta, k.deltaLayout, b, d, m0.delta, m.delta, pos) {
      var a := Base(k.meta, k.deltaLayout, b, d) + pos;
      forall p | p in progs ensures !DeltaCell(k, p, a) {
        if p != Program(b, d) {
          CellsApart(k.meta, k.deltaLayout, Program(b, d), p, a);
        }
      }
    }
  }

  lemma ReadyIsServed<S, E, V>(o: Ops<S, E, V>, k: Kernel<S, E, V>, m0: Mem<S, E>, rs: seq<Request<E, V>>,
                               progs: set<Program>, m: Mem<S, E>)
    requires Ready(o, k, m0, rs) && GridFits(k, m0) && Programs(k, progs) && OutOfPlace(k, m0, progs, m)
    requires Contiguous(k.meta, k.deltaLayout)
    requires forall p: Program :: InGrid(k.meta, p) ==> p in progs
    ensures Served(o, k, rs, m0, m)
  {
    forall b, d | 0 <= b < k.meta.size && 0 <= d < k.meta.dim
      ensures if NullRow(k.meta, b) then LeftAlone(k, b, d, m0.delta, m.delta) else ServedAt(o, k, rs, b, d, m)
    {
      assert InGrid(k.meta, Program(b, d));
      if NullRow(k.meta, b) {
        SkippedIsLeftAlone(k, m0, progs, m, b, d);
      } else {
        assert ReadyAt(o, k, m0, rs, b, d);
        RowIsServed(o, k, m0, rs, progs, m, b, d);
      }
    }
  }

  /** The launch over real arrays: all programs of the grid, in any order. */
  method LaunchBatch<S, E, V>(k: Kernel<S, E, V>, order: seq<Program>, delta: array<E>, z: array<E>, ssm: array<S>,
                              ghost o: Ops<S, E, V>, ghost rs: seq<Request<E, V>>)
    requires Ready(o, k, Mem(delta[..], z[..], ssm[..]), rs) && DenseStates(k.meta, k.ssmLayout)
    requires Contiguous(k.meta, k.deltaLayout) && (k.hasZ ==> Contiguous(k.meta, k.zLayout))
    requires Schedule(k, order) && forall p: Program :: InGrid(k.meta, p) ==> p in order
    requires delta != z && ssm as object != delta && ssm as object != z
    modifies delta, z, ssm
    ensures Served(o, k, rs, old(Mem(delta[..], z[..], ssm[..])), Mem(delta[..], z[..], ssm[..]))
  {
    ghost var m0 := Mem(delta[..], z[..], ssm[..]);
    ReadyFits(o, k, m0, rs);
    ReadySeparates(o, k, m0, rs);
    Launch(k, order, delta, z, ssm);
    ReadyIsServed(o, k, m0, rs, Members(order), Mem(delta[..], z[..], ssm[..]));
  }

  /** Such a launch exists for every history, position and right cache. */
  lemma LaunchExists<S, E, V>(o: Ops<S, E, V>, h: seq<Token<E, V>>, size: nat, computed: nat, scheduled: nat,
                              cells: seq<S>)
    returns (k: Kernel<S, E, V>, m: Mem<S, E>, rs: seq<Request<E, V>>)
    requires size > 0 && scheduled > 0 && computed + scheduled <= |h| && LastBlock(computed + scheduled, size) < |cells|
    requires Holds(o, 0, h, size, computed, cells)
    ensures Ready(o, k, m, rs) && DenseStates(k.meta, k.ssmLayout) && Contiguous(k.meta, k.deltaLayout) && !k.hasZ
    ensures |rs| == 1 && rs[0].histories == [h] && rs[0].computed == computed
    ensures rs[0].scheduled == scheduled && m.ssm == cells
  {
    var f: nat;
    k, m, f := ScanSplits.AloneIsValid(o, h, size, computed, scheduled, cells);
    ScanSplits.NumberedCells(k.ssmLayout, cells);
    rs := [Request([h], ScanSplits.Numbered(|cells|), computed, scheduled, f)];
    AloneReady(o, k, m, rs);
  }

  lemma AloneReady<S, E, V>(o: Ops<S, E, V>, k: Kernel<S, E, V>, m: Mem<S, E>, rs: seq<Request<E, V>>)
    requires WellFormed(k.meta) && |rs| == k.meta.size == 1 && k.meta.dim == 1 && ReadyAt(o, k, m, rs, 0, 0)
    ensures Ready(o, k, m, rs)
  {
    forall b, d | 0 <= b < k.meta.size && 0 <= d < k.meta.dim ensures ReadyAt(o, k, m, rs, b, d) {
      assert b == 0 && d == 0;
    }
  }
}
