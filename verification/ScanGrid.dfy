/** The launch grid: programs that run one at a time, in any order, over memory they
    overwrite, give the result of running each of them on the original memory. */
module ScanGrid {
  import opened ScanKernel

  datatype Program = Program(b: nat, d: nat)

  predicate InGrid(q: Batch, p: Program) {
    p.b < q.size && p.d < q.dim
  }

  ghost predicate GridFits<S, E, V>(k: Kernel<S, E, V>, m: Mem<S, E>) {
    WellFormed(k.meta) && forall p: Program :: InGrid(k.meta, p) ==> Fits(k, m, p.b, p.d)
  }

  // ----- the cells a program touches

  ghost predicate Active<S, E, V>(k: Kernel<S, E, V>, p: Program)
    requires WellFormed(k.meta)
  {
    InGrid(k.meta, p) && !Skipped(k.meta, p.b)
  }

  ghost predicate DeltaCell<S, E, V>(k: Kernel<S, E, V>, p: Program, a: int)
    requires WellFormed(k.meta)
  {
    Active(k, p) &&
    var base := Base(k.meta, k.deltaLayout, p.b, p.d); base <= a < base + SeqLen(k.meta, p.b)
  }

  ghost predicate ZCell<S, E, V>(k: Kernel<S, E, V>, p: Program, a: int)
    requires WellFormed(k.meta)
  {
    Active(k, p) && k.hasZ &&
    var base := Base(k.meta, k.zLayout, p.b, p.d); base <= a < base + SeqLen(k.meta, p.b)
  }

  ghost predicate SsmRead<S, E, V>(k: Kernel<S, E, V>, p: Program, a: int)
    requires WellFormed(k.meta)
  {
    Active(k, p) && HasInit(k.meta, p.b) && a == SsmAddr(k.ssmLayout, LoadSlot(k.meta, p.b), p.d)
  }

  ghost predicate StoresAt<S, E, V>(k: Kernel<S, E, V>, p: Program, c: nat, a: int)
    requires WellFormed(k.meta)
  {
    && Active(k, p) && c < NumChunks(k.meta, p.b)
    && (k.meta.cacheEnabled ==> StoreColumn(k.meta, p.b, c) < |k.meta.table[p.b]|)
    && a == SsmAddr(k.ssmLayout, StoreSlot(k.meta, p.b, c), p.d)
  }

  ghost predicate SsmWrite<S, E, V>(k: Kernel<S, E, V>, p: Program, a: int)
    requires WellFormed(k.meta)
  {
    exists c: nat :: StoresAt(k, p, c, a)
  }

  /** Neither program writes a cell the other touches. Two rows may load from one shared slot. */
  ghost predicate Independent<S, E, V>(k: Kernel<S, E, V>, p: Program, r: Program)
    requires WellFormed(k.meta)
  {
    forall a: int ::
      && !(DeltaCell(k, p, a) && DeltaCell(k, r, a))
      && !(ZCell(k, p, a) && ZCell(k, r, a))
      && !(SsmWrite(k, p, a) && (SsmWrite(k, r, a) || SsmRead(k, r, a)))
  }

  ghost predicate Separate<S, E, V>(k: Kernel<S, E, V>)
    requires WellFormed(k.meta)
  {
    forall p: Program, r: Program ::
      InGrid(k.meta, p) && InGrid(k.meta, r) && p != r ==> Independent(k, p, r)
  }

  ghost predicate SameShape<S, E>(m: Mem<S, E>, w: Mem<S, E>) {
    |m.delta| == |w.delta| && |m.z| == |w.z| && |m.ssm| == |w.ssm|
  }

  /** `m` and `w` hold the same values wherever `p` reads. */
  ghost predicate AgreeOnReads<S, E, V>(k: Kernel<S, E, V>, p: Program, m: Mem<S, E>, w: Mem<S, E>)
    requires WellFormed(k.meta)
  {
    && SameShape(m, w)
    && (forall a :: 0 <= a < |m.delta| && DeltaCell(k, p, a) ==> m.delta[a] == w.delta[a])
    && (forall a :: 0 <= a < |m.z| && ZCell(k, p, a) ==> m.z[a] == w.z[a])
    && (forall a :: 0 <= a < |m.ssm| && SsmRead(k, p, a) ==> m.ssm[a] == w.ssm[a])
  }

  ghost predicate Programs<S, E, V>(k: Kernel<S, E, V>, progs: set<Program>) {
    forall p :: p in progs ==> InGrid(k.meta, p)
  }

  ghost predicate DeltaOutOfPlace<S, E, V>(k: Kernel<S, E, V>, m0: Mem<S, E>, progs: set<Program>, m: Mem<S, E>)
    requires GridFits(k, m0) && Programs(k, progs) && SameShape(m0, m)
  {
    && (forall p, a :: p in progs && 0 <= a < |m.delta| && DeltaCell(k, p, a) ==>
          m.delta[a] == Effect(k, m0, p.b, p.d).delta[a])
    && (forall a :: 0 <= a < |m.delta| && (forall p :: p in progs ==> !DeltaCell(k, p, a)) ==>
          m.delta[a] == m0.delta[a])
  }

  ghost predicate ZOutOfPlace<S, E, V>(k: Kernel<S, E, V>, m0: Mem<S, E>, progs: set<Program>, m: Mem<S, E>)
    requires GridFits(k, m0) && Programs(k, progs) && SameShape(m0, m)
  {
    && (forall p, a :: p in progs && 0 <= a < |m.z| && ZCell(k, p, a) ==>
          m.z[a] == Effect(k, m0, p.b, p.d).z[a])
    && (forall a :: 0 <= a < |m.z| && (forall p :: p in progs ==> !ZCell(k, p, a)) ==>
          m.z[a] == m0.z[a])
  }

  ghost predicate SsmOutOfPlace<S, E, V>(k: Kernel<S, E, V>, m0: Mem<S, E>, progs: set<Program>, m: Mem<S, E>)
    requires GridFits(k, m0) && Programs(k, progs) && SameShape(m0, m)
  {
    && (forall p, a :: p in progs && 0 <= a < |m.ssm| && SsmWrite(k, p, a) ==>
          m.ssm[a] == Effect(k, m0, p.b, p.d).ssm[a])
    && (forall a :: 0 <= a < |m.ssm| && (forall p :: p in progs ==> !SsmWrite(k, p, a)) ==>
          m.ssm[a] == m0.ssm[a])
  }

  /** `m` is what `progs` leave when each of them runs alone on `m0`. */
  ghost predicate OutOfPlace<S, E, V>(k: Kernel<S, E, V>, m0: Mem<S, E>, progs: set<Program>, m: Mem<S, E>)
    requires GridFits(k, m0) && Programs(k, progs)
  {
    && SameShape(m0, m)
    && DeltaOutOfPlace(k, m0, progs, m)
    && ZOutOfPlace(k, m0, progs, m)
    && SsmOutOfPlace(k, m0, progs, m)
  }

  // ----- a program changes only its own cells

  lemma {:induction false} StoredFrame<S, E, V>(k: Kernel<S, E, V>, m: Mem<S, E>, p: Program, c: nat, a: nat)
    requires Fits(k, m, p.b, p.d) && !Skipped(k.meta, p.b) && c <= NumChunks(k.meta, p.b) && a < |m.ssm|
    requires !SsmWrite(k, p, a)
    ensures Stored(k, m, p.b, p.d, c)[a] == m.ssm[a]
    decreases c
  {
    if c > 0 {
      StoredFrame(k, m, p, c - 1, a);
      assert !StoresAt(k, p, c - 1, a);
    }
  }

  lemma EffectFrame<S, E, V>(k: Kernel<S, E, V>, m: Mem<S, E>, p: Program)
    requires Fits(k, m, p.b, p.d)
    ensures var r := Effect(k, m, p.b, p.d);
            && (forall a :: 0 <= a < |m.delta| && !DeltaCell(k, p, a) ==> r.delta[a] == m.delta[a])
            && (forall a :: 0 <= a < |m.z| && !ZCell(k, p, a) ==> r.z[a] == m.z[a])
            && (forall a :: 0 <= a < |m.ssm| && !SsmWrite(k, p, a) ==> r.ssm[a] == m.ssm[a])
  {
    if !Skipped(k.meta, p.b) {
      var n := SeqLen(k.meta, p.b);
      forall a: nat | a < |m.delta| && !DeltaCell(k, p, a) {
        DeltaAt(k, m, p.b, p.d, n, a);
      }
      forall a: nat | a < |m.z| && !ZCell(k, p, a) {
        ZAt(k, m, p.b, p.d, n, a);
      }
      forall a: nat | a < |m.ssm| && !SsmWrite(k, p, a) {
        StoredFrame(k, m, p, NumChunks(k.meta, p.b), a);
      }
    }
  }

  // ----- what a program writes depends only on what it reads

  lemma {:induction false} StateLocal<S, E, V>(k: Kernel<S, E, V>, p: Program, m: Mem<S, E>, w: Mem<S, E>, n: nat)
    requires Fits(k, m, p.b, p.d) && Fits(k, w, p.b, p.d) && !Skipped(k.meta, p.b) && n <= SeqLen(k.meta, p.b)
    requires AgreeOnReads(k, p, m, w)
    ensures StateAfter(k, m, p.b, p.d, n) == StateAfter(k, w, p.b, p.d, n)
    decreases n
  {
    if n > 0 {
      StateLocal(k, p, m, w, n - 1);
      TokenLocal(k, p, m, w, n - 1);
    } else {
      var a := SsmAddr(k.ssmLayout, LoadSlot(k.meta, p.b), p.d);
      assert HasInit(k.meta, p.b) ==> SsmRead(k, p, a);
    }
  }

  lemma TokenLocal<S, E, V>(k: Kernel<S, E, V>, p: Program, m: Mem<S, E>, w: Mem<S, E>, pos: nat)
    requires Fits(k, m, p.b, p.d) && Fits(k, w, p.b, p.d) && !Skipped(k.meta, p.b) && pos < SeqLen(k.meta, p.b)
    requires AgreeOnReads(k, p, m, w)
    ensures TokenAt(k, m, p.b, p.d, pos) == TokenAt(k, w, p.b, p.d, pos)
  {
    assert DeltaCell(k, p, Base(k.meta, k.deltaLayout, p.b, p.d) + pos);
  }

  lemma {:induction false} StoredLocal<S, E, V>(k: Kernel<S, E, V>, p: Program, m: Mem<S, E>, w: Mem<S, E>, c: nat,
                                                i: nat, a: nat)
    requires Fits(k, m, p.b, p.d) && Fits(k, w, p.b, p.d) && !Skipped(k.meta, p.b)
    requires i < c <= NumChunks(k.meta, p.b) && a < |m.ssm|
    requires AgreeOnReads(k, p, m, w)
    requires StoresAt(k, p, i, a)
    ensures Stored(k, m, p.b, p.d, c)[a] == Stored(k, w, p.b, p.d, c)[a]
    decreases c
  {
    TokensWithin(k.meta, p.b, c);
    StateLocal(k, p, m, w, TokensBefore(k.meta, p.b, c));
    if i < c - 1 {
      StoredLocal(k, p, m, w, c - 1, i, a);
    }
  }

  lemma EffectLocal<S, E, V>(k: Kernel<S, E, V>, p: Program, m: Mem<S, E>, w: Mem<S, E>)
    requires Fits(k, m, p.b, p.d) && Fits(k, w, p.b, p.d)
    requires AgreeOnReads(k, p, m, w)
    ensures var r, t := Effect(k, m, p.b, p.d), Effect(k, w, p.b, p.d);
            && (forall a :: 0 <= a < |m.delta| && DeltaCell(k, p, a) ==> r.delta[a] == t.delta[a])
            && (forall a :: 0 <= a < |m.z| && ZCell(k, p, a) ==> r.z[a] == t.z[a])
            && (forall a :: 0 <= a < |m.ssm| && SsmWrite(k, p, a) ==> r.ssm[a] == t.ssm[a])
  {
    if !Skipped(k.meta, p.b) {
      var n := SeqLen(k.meta, p.b);
      forall a: nat | a < |m.delta| && DeltaCell(k, p, a) {
        DeltaCellLocal(k, p, m, w, a);
      }
      forall a: nat | a < |m.z| && ZCell(k, p, a) {
        ZCellLocal(k, p, m, w, a);
      }
      forall a: nat | a < |m.ssm| && SsmWrite(k, p, a)
        ensures Stored(k, m, p.b, p.d, NumChunks(k.meta, p.b))[a] == Stored(k, w, p.b, p.d, NumChunks(k.meta, p.b))[a]
      {
        var i: nat :| StoresAt(k, p, i, a);
        StoredLocal(k, p, m, w, NumChunks(k.meta, p.b), i, a);
      }
    }
  }

  lemma OutLocal<S, E, V>(k: Kernel<S, E, V>, p: Program, m: Mem<S, E>, w: Mem<S, E>, pos: nat)
    requires Fits(k, m, p.b, p.d) && Fits(k, w, p.b, p.d) && !Skipped(k.meta, p.b) && pos < SeqLen(k.meta, p.b)
    requires AgreeOnReads(k, p, m, w)
    ensures OutAt(k, m, p.b, p.d, pos) == OutAt(k, w, p.b, p.d, pos)
  {
    StateLocal(k, p, m, w, pos + 1);
    TokenLocal(k, p, m, w, pos);
  }

  lemma DeltaCellLocal<S, E, V>(k: Kernel<S, E, V>, p: Program, m: Mem<S, E>, w: Mem<S, E>, a: nat)
    requires Fits(k, m, p.b, p.d) && Fits(k, w, p.b, p.d) && AgreeOnReads(k, p, m, w)
    requires a < |m.delta| && DeltaCell(k, p, a)
    ensures DeltaAfter(k, m, p.b, p.d, SeqLen(k.meta, p.b))[a] == DeltaAfter(k, w, p.b, p.d, SeqLen(k.meta, p.b))[a]
  {
    DeltaAt(k, m, p.b, p.d, SeqLen(k.meta, p.b), a);
    DeltaAt(k, w, p.b, p.d, SeqLen(k.meta, p.b), a);
    OutLocal(k, p, m, w, a - Base(k.meta, k.deltaLayout, p.b, p.d));
  }

  lemma ZCellLocal<S, E, V>(k: Kernel<S, E, V>, p: Program, m: Mem<S, E>, w: Mem<S, E>, a: nat)
    requires Fits(k, m, p.b, p.d) && Fits(k, w, p.b, p.d) && AgreeOnReads(k, p, m, w)
    requires a < |m.z| && ZCell(k, p, a)
    ensures ZAfter(k, m, p.b, p.d, SeqLen(k.meta, p.b))[a] == ZAfter(k, w, p.b, p.d, SeqLen(k.meta, p.b))[a]
  {
    ZAt(k, m, p.b, p.d, SeqLen(k.meta, p.b), a);
    ZAt(k, w, p.b, p.d, SeqLen(k.meta, p.b), a);
    OutLocal(k, p, m, w, a - Base(k.meta, k.zLayout, p.b, p.d));
  }

  // ----- whole launches

  ghost predicate Schedule<S, E, V>(k: Kernel<S, E, V>, order: seq<Program>) {
    && (forall i :: 0 <= i < |order| ==> InGrid(k.meta, order[i]))
    && (forall i, j :: 0 <= i < j < |order| ==> order[i] != order[j])
  }

  ghost function RunAll<S, E, V>(k: Kernel<S, E, V>, m: Mem<S, E>, order: seq<Program>): (r: Mem<S, E>)
    requires GridFits(k, m)
    requires forall i :: 0 <= i < |order| ==> InGrid(k.meta, order[i])
    ensures SameShape(m, r)
  {
    if order == [] then m
    else
      var n := |order| - 1;
      Effect(k, RunAll(k, m, order[..n]), order[n].b, order[n].d)
  }

  ghost function Members(order: seq<Program>): set<Program> {
    set i | 0 <= i < |order| :: order[i]
  }

  /** `p` is in the grid, has not run yet, and clashes with no program that has. */
  ghost predicate Next<S, E, V>(k: Kernel<S, E, V>, progs: set<Program>, p: Program)
    requires WellFormed(k.meta)
  {
    && InGrid(k.meta, p) && Programs(k, progs) && p !in progs
    && (forall r :: r in progs ==> Independent(k, r, p) && Independent(k, p, r))
  }

  /** Programs that have run left the inputs of `p` alone. */
  lemma ReadsUndisturbed<S, E, V>(k: Kernel<S, E, V>, m0: Mem<S, E>, progs: set<Program>, m: Mem<S, E>, p: Program)
    requires GridFits(k, m0) && Next(k, progs, p) && OutOfPlace(k, m0, progs, m)
    ensures AgreeOnReads(k, p, m, m0)
  {
  }

  lemma StepDelta<S, E, V>(k: Kernel<S, E, V>, m0: Mem<S, E>, progs: set<Program>, m: Mem<S, E>, p: Program,
                           r: Mem<S, E>)
    requires GridFits(k, m0) && Next(k, progs, p) && SameShape(m0, m)
    requires SameShape(m0, r) && DeltaOutOfPlace(k, m0, progs, m)
    requires forall a :: 0 <= a < |m.delta| && !DeltaCell(k, p, a) ==> r.delta[a] == m.delta[a]
    requires forall a :: 0 <= a < |m.delta| && DeltaCell(k, p, a) ==> r.delta[a] == Effect(k, m0, p.b, p.d).delta[a]
    ensures DeltaOutOfPlace(k, m0, progs + {p}, r)
  {
    forall q, a | q in progs + {p} && 0 <= a < |r.delta| && DeltaCell(k, q, a)
      ensures r.delta[a] == Effect(k, m0, q.b, q.d).delta[a]
    {
      assert q != p ==> Independent(k, q, p);
    }
    forall a | 0 <= a < |r.delta| && (forall q :: q in progs + {p} ==> !DeltaCell(k, q, a))
      ensures r.delta[a] == m0.delta[a]
    {
      assert forall q :: q in progs ==> q in progs + {p};
      assert p in progs + {p};
    }
  }

  lemma StepZ<S, E, V>(k: Kernel<S, E, V>, m0: Mem<S, E>, progs: set<Program>, m: Mem<S, E>, p: Program, r: Mem<S, E>)
    requires GridFits(k, m0) && Next(k, progs, p) && SameShape(m0, m)
    requires SameShape(m0, r) && ZOutOfPlace(k, m0, progs, m)
    requires forall a :: 0 <= a < |m.z| && !ZCell(k, p, a) ==> r.z[a] == m.z[a]
    requires forall a :: 0 <= a < |m.z| && ZCell(k, p, a) ==> r.z[a] == Effect(k, m0, p.b, p.d).z[a]
    ensures ZOutOfPlace(k, m0, progs + {p}, r)
  {
    forall q, a | q in progs + {p} && 0 <= a < |r.z| && ZCell(k, q, a)
      ensures r.z[a] == Effect(k, m0, q.b, q.d).z[a]
    {
      assert q != p ==> Independent(k, q, p);
    }
    forall a | 0 <= a < |r.z| && (forall q :: q in progs + {p} ==> !ZCell(k, q, a))
      ensures r.z[a] == m0.z[a]
    {
      assert forall q :: q in progs ==> q in progs + {p};
      assert p in progs + {p};
    }
  }

  lemma StepSsm<S, E, V>(k: Kernel<S, E, V>, m0: Mem<S, E>, progs: set<Program>, m: Mem<S, E>, p: Program, r: Mem<S, E>)
    requires GridFits(k, m0) && Next(k, progs, p) && SameShape(m0, m)
    requires SameShape(m0, r) && SsmOutOfPlace(k, m0, progs, m)
    requires forall a :: 0 <= a < |m.ssm| && !SsmWrite(k, p, a) ==> r.ssm[a] == m.ssm[a]
    requires forall a :: 0 <= a < |m.ssm| && SsmWrite(k, p, a) ==> r.ssm[a] == Effect(k, m0, p.b, p.d).ssm[a]
    ensures SsmOutOfPlace(k, m0, progs + {p}, r)
  {
    forall q, a | q in progs + {p} && 0 <= a < |r.ssm| && SsmWrite(k, q, a)
      ensures r.ssm[a] == Effect(k, m0, q.b, q.d).ssm[a]
    {
      assert q != p ==> Independent(k, q, p);
    }
    forall a | 0 <= a < |r.ssm| && (forall q :: q in progs + {p} ==> !SsmWrite(k, q, a))
      ensures r.ssm[a] == m0.ssm[a]
    {
      assert forall q :: q in progs ==> q in progs + {p};
      assert p in progs + {p};
    }
  }

  /** Running one more program keeps the launch equal to its out-of-place meaning. */
  lemma StepOutOfPlace<S, E, V>(k: Kernel<S, E, V>, m0: Mem<S, E>, progs: set<Program>, m: Mem<S, E>, p: Program)
    requires GridFits(k, m0) && Next(k, progs, p)
    requires OutOfPlace(k, m0, progs, m) && Fits(k, m0, p.b, p.d) && Fits(k, m, p.b, p.d)
    ensures OutOfPlace(k, m0, progs + {p}, Effect(k, m, p.b, p.d))
  {
    var r := Effect(k, m, p.b, p.d);
    ReadsUndisturbed(k, m0, progs, m, p);
    EffectFrame(k, m, p);
    EffectLocal(k, p, m, m0);
    StepDelta(k, m0, progs, m, p, r);
    StepZ(k, m0, progs, m, p, r);
    StepSsm(k, m0, progs, m, p, r);
  }

  /** Any duplicate-free order of programs gives the out-of-place result. */
  lemma {:induction false} LaunchIsOutOfPlace<S, E, V>(k: Kernel<S, E, V>, m0: Mem<S, E>, order: seq<Program>)
    requires GridFits(k, m0) && Separate(k) && Schedule(k, order)
    ensures OutOfPlace(k, m0, Members(order), RunAll(k, m0, order))
    decreases |order|
  {
    if order != [] {
      var n := |order| - 1;
      var front := order[..n];
      LaunchIsOutOfPlace(k, m0, front);
      assert Members(order) == Members(front) + {order[n]};
      assert order[n] !in Members(front);
      assert Fits(k, m0, order[n].b, order[n].d);
      assert Next(k, Members(front), order[n]);
      StepOutOfPlace(k, m0, Members(front), RunAll(k, m0, front), order[n]);
    }
  }

  lemma OutOfPlaceUnique<S, E, V>(k: Kernel<S, E, V>, m0: Mem<S, E>, progs: set<Program>, m: Mem<S, E>, w: Mem<S, E>)
    requires GridFits(k, m0) && Programs(k, progs)
    requires OutOfPlace(k, m0, progs, m) && OutOfPlace(k, m0, progs, w)
    ensures m == w
  {
    forall a | 0 <= a < |m.delta| ensures m.delta[a] == w.delta[a] {
      if p :| p in progs && DeltaCell(k, p, a) {
        assert m.delta[a] == Effect(k, m0, p.b, p.d).delta[a];
      }
    }
    forall a | 0 <= a < |m.z| ensures m.z[a] == w.z[a] {
      if p :| p in progs && ZCell(k, p, a) {
        assert m.z[a] == Effect(k, m0, p.b, p.d).z[a];
      }
    }
    forall a | 0 <= a < |m.ssm| ensures m.ssm[a] == w.ssm[a] {
      if p :| p in progs && SsmWrite(k, p, a) {
        assert m.ssm[a] == Effect(k, m0, p.b, p.d).ssm[a];
      }
    }
    assert m.delta == w.delta && m.z == w.z && m.ssm == w.ssm;
  }

  /** The grid is order-free: two orders of the same programs leave the same memory. */
  lemma OrderFree<S, E, V>(k: Kernel<S, E, V>, m0: Mem<S, E>, order: seq<Program>, other: seq<Program>)
    requires GridFits(k, m0) && Separate(k) && Schedule(k, order) && Schedule(k, other)
    requires Members(order) == Members(other)
    ensures RunAll(k, m0, order) == RunAll(k, m0, other)
  {
    LaunchIsOutOfPlace(k, m0, order);
    LaunchIsOutOfPlace(k, m0, other);
    OutOfPlaceUnique(k, m0, Members(order), RunAll(k, m0, order), RunAll(k, m0, other));
  }

  /** In an out-of-place result every output position holds the plain recurrence over the
      original inputs. */
  lemma OutputsOf<S, E, V>(k: Kernel<S, E, V>, m0: Mem<S, E>, progs: set<Program>, m: Mem<S, E>, p: Program, pos: nat)
    requires GridFits(k, m0) && Programs(k, progs) && SameShape(m0, m) && DeltaOutOfPlace(k, m0, progs, m)
    requires p in progs && Fits(k, m0, p.b, p.d) && !Skipped(k.meta, p.b) && pos < SeqLen(k.meta, p.b)
    ensures m.delta[Base(k.meta, k.deltaLayout, p.b, p.d) + pos] == OutAt(k, m0, p.b, p.d, pos)
  {
    var a := Base(k.meta, k.deltaLayout, p.b, p.d) + pos;
    assert DeltaCell(k, p, a);
    DeltaAt(k, m0, p.b, p.d, SeqLen(k.meta, p.b), a);
  }

  /** ... and every gated position the gate of that output and the original `z`. */
  lemma GatedOutputsOf<S, E, V>(k: Kernel<S, E, V>, m0: Mem<S, E>, progs: set<Program>, m: Mem<S, E>, p: Program,
                                pos: nat)
    requires GridFits(k, m0) && Programs(k, progs) && SameShape(m0, m) && ZOutOfPlace(k, m0, progs, m) && k.hasZ
    requires p in progs && Fits(k, m0, p.b, p.d) && !Skipped(k.meta, p.b) && pos < SeqLen(k.meta, p.b)
    ensures var a := Base(k.meta, k.zLayout, p.b, p.d) + pos;
            m.z[a] == k.gate(OutAt(k, m0, p.b, p.d, pos), m0.z[a])
  {
    var a := Base(k.meta, k.zLayout, p.b, p.d) + pos;
    assert ZCell(k, p, a);
    ZAt(k, m0, p.b, p.d, SeqLen(k.meta, p.b), a);
  }

  /** Runs the programs of `order` one after another, as a device may. */
  method Launch<S, E, V>(k: Kernel<S, E, V>, order: seq<Program>,
                         delta: array<E>, z: array<E>, ssm: array<S>)
    requires GridFits(k, Mem(delta[..], z[..], ssm[..])) && Separate(k) && Schedule(k, order)
    requires delta != z && ssm as object != delta && ssm as object != z
    modifies delta, z, ssm
    ensures OutOfPlace(k, old(Mem(delta[..], z[..], ssm[..])), Members(order), Mem(delta[..], z[..], ssm[..]))
  {
    ghost var m0 := Mem(delta[..], z[..], ssm[..]);
    for i := 0 to |order|
      invariant Mem(delta[..], z[..], ssm[..]) == RunAll(k, m0, order[..i])
    {
      assert Fits(k, m0, order[i].b, order[i].d);
      assert order[..i + 1][..i] == order[..i];
      RunProgram(k, order[i].b, order[i].d, delta, z, ssm);
    }
    assert order[..|order|] == order;
    LaunchIsOutOfPlace(k, m0, order);
  }
}
