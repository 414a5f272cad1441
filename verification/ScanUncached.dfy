/** Without prefix caching a request keeps one state, in one slot: each launch resumes from what the last one
    left there, and computes what one uninterrupted scan of the request's history computes. */
module ScanUncached {
  import opened ScanKernel
  import opened ScanGrid
  import opened ScanLayout
  import ScanRuns

  // ----- the slot of a row

  /** The slot of row `b`: the one it is given, or its own number. */
  function OwnSlot(q: Batch, b: nat): int
    requires q.hasCacheIndices ==> b < |q.table| && 1 <= |q.table[b]|
  {
    if q.hasCacheIndices then q.table[b][0] else b
  }

  /** A row that is given the null block is to be left alone. */
  predicate Null(q: Batch, b: nat)
    requires q.hasCacheIndices ==> b < |q.table| && 1 <= |q.table[b]|
  {
    q.hasCacheIndices && q.table[b][0] == q.nullBlock
  }

  /** Where the state of dimension `d` in a slot is. */
  function CellOf(l: Layout, slot: int, d: nat): int {
    slot * l.batch + d * l.row
  }

  /** A launch without prefix caching. */
  ghost predicate Plainly(q: Batch) {
    WellFormed(q) && !q.cacheEnabled
  }

  lemma SlotIs(q: Batch, b: nat)
    requires Plainly(q) && b < q.size
    ensures LoadSlot(q, b) == OwnSlot(q, b) && (Skipped(q, b) <==> Null(q, b))
    ensures NumChunks(q, b) == 1 && StoreSlot(q, b, 0) == OwnSlot(q, b)
  {
  }

  // ----- one row of one launch

  /** Tokens computed .. computed + scheduled of history `h` are scheduled. */
  datatype Part<!E, !V> = Part(h: seq<Token<E, V>>, computed: nat, scheduled: nat)

  /** Token `pos` of the part is in the tensors. */
  ghost predicate TokenThere<S, E, V>(k: Kernel<S, E, V>, m: Mem<S, E>, b: nat, d: nat, part: Part<E, V>, pos: nat)
    requires WellFormed(k.meta) && b < k.meta.size
  {
    && part.computed + pos < |part.h|
    && forall g: nat :: InGroup(k.meta, d, g) ==> InTensors(k, m, b, d, g, pos, part.h[part.computed + pos])
  }

  /** Row `b` is to run this part: its tokens are in place, there are as many as the metadata says, and the
      metadata says whether there is a state to resume from. */
  ghost predicate Scheduled<S, E, V>(o: ScanRuns.Ops<S, E, V>, k: Kernel<S, E, V>, m: Mem<S, E>, b: nat, d: nat,
                                     part: Part<E, V>)
  {
    var q := k.meta;
    && Plainly(q) && Fits(k, m, b, d) && !Null(q, b)
    && ScanRuns.Ops(k.zero, k.step, k.emit) == o
    && UnitStride(q, k.uLayout) && UnitStride(q, k.deltaLayout) && UnitStride(q, k.bLayout) && UnitStride(q, k.cLayout)
    && (k.hasZ ==> UnitStride(q, k.zLayout))
    && part.computed + part.scheduled <= |part.h|
    && part.scheduled == (if q.varlen then q.starts[b + 1] - q.starts[b] else q.seqlen)
    && (part.computed > 0 <==> q.hasInitialState.Some? && q.hasInitialState.value[b])
    && forall pos: nat :: pos < part.scheduled ==> TokenThere(k, m, b, d, part, pos)
  }

  /** The slot of row `b` holds the state after the first `n` tokens. */
  ghost predicate HoldsState<S, E, V>(o: ScanRuns.Ops<S, E, V>, k: Kernel<S, E, V>, ssm: seq<S>, b: nat, d: nat,
                                      h: seq<Token<E, V>>, n: nat)
    requires Plainly(k.meta) && b < k.meta.size
  {
    var a := CellOf(k.ssmLayout, OwnSlot(k.meta, b), d);
    0 <= a < |ssm| && n <= |h| && ssm[a] == ScanRuns.Plain(o, d, h, n)
  }

  /** What row `b` finds: the state so far, if there are tokens before. */
  ghost predicate Finds<S, E, V>(o: ScanRuns.Ops<S, E, V>, k: Kernel<S, E, V>, m: Mem<S, E>, b: nat, d: nat,
                                 part: Part<E, V>)
    requires Plainly(k.meta) && b < k.meta.size
  {
    part.computed > 0 ==> HoldsState(o, k, m.ssm, b, d, part.h, part.computed)
  }

  /** The output of token `pos` is that of the uninterrupted scan, gated if there is a gate. */
  ghost predicate OutputAt<S, E, V>(o: ScanRuns.Ops<S, E, V>, k: Kernel<S, E, V>, m0: Mem<S, E>, m: Mem<S, E>, b: nat,
                                    d: nat, part: Part<E, V>, pos: nat)
    requires WellFormed(k.meta) && b < k.meta.size
  {
    var a, z := TensorAddr(k.meta, k.deltaLayout, b, d, pos), TensorAddr(k.meta, k.zLayout, b, d, pos);
    && part.computed + pos < |part.h|
    && var out := ScanRuns.PlainOut(o, d, part.h, part.computed + pos);
       && a < |m.delta| && m.delta[a] == out
       && (k.hasZ ==> z < |m.z| == |m0.z| && m.z[z] == k.gate(out, m0.z[z]))
  }

  /** Row `b` has run: every output is that of the uninterrupted scan, and so is the state left behind. */
  ghost predicate Done<S, E, V>(o: ScanRuns.Ops<S, E, V>, k: Kernel<S, E, V>, m0: Mem<S, E>, m: Mem<S, E>, b: nat,
                                d: nat, part: Part<E, V>)
  {
    && Plainly(k.meta) && b < k.meta.size
    && (forall pos: nat :: pos < part.scheduled ==> OutputAt(o, k, m0, m, b, d, part, pos))
    && HoldsState(o, k, m.ssm, b, d, part.h, part.computed + part.scheduled)
  }

  /** The kernel sees the tokens of the part. */
  lemma Sees<S, E, V>(o: ScanRuns.Ops<S, E, V>, k: Kernel<S, E, V>, m: Mem<S, E>, b: nat, d: nat, part: Part<E, V>,
                      pos: nat)
    requires Scheduled(o, k, m, b, d, part) && pos < part.scheduled
    ensures !Skipped(k.meta, b) && SeqLen(k.meta, b) == part.scheduled
    ensures TokenAt(k, m, b, d, pos) == part.h[part.computed + pos]
  {
    SlotIs(k.meta, b);
    assert TokenThere(k, m, b, d, part, pos);
    InOwnGroup(k.meta, d);
    SeesIn(k, m, b, d, d / k.meta.ratio, pos, part.h[part.computed + pos]);
  }

  lemma SeesIn<S, E, V>(k: Kernel<S, E, V>, m: Mem<S, E>, b: nat, d: nat, g: nat, pos: nat, t: Token<E, V>)
    requires Fits(k, m, b, d) && !Skipped(k.meta, b) && pos < SeqLen(k.meta, b) && InGroup(k.meta, d, g)
    requires UnitStride(k.meta, k.uLayout) && UnitStride(k.meta, k.deltaLayout)
    requires UnitStride(k.meta, k.bLayout) && UnitStride(k.meta, k.cLayout)
    requires InTensors(k, m, b, d, g, pos, t)
    ensures TokenAt(k, m, b, d, pos) == t
  {
    ReadsTensors(k, m, b, d, g, pos);
    OneToken(k, m, b, d, g, pos, t, TokenAt(k, m, b, d, pos));
  }

  lemma OneToken<S, E, V>(k: Kernel<S, E, V>, m: Mem<S, E>, b: nat, d: nat, g: nat, pos: nat, t: Token<E, V>,
                          t': Token<E, V>)
    requires WellFormed(k.meta) && b < k.meta.size
    requires InTensors(k, m, b, d, g, pos, t) && InTensors(k, m, b, d, g, pos, t')
    ensures t == t'
  {
  }

  /** It starts from the state so far. */
  lemma StartsFrom<S, E, V>(o: ScanRuns.Ops<S, E, V>, k: Kernel<S, E, V>, m: Mem<S, E>, b: nat, d: nat,
                            part: Part<E, V>)
    requires Scheduled(o, k, m, b, d, part) && Finds(o, k, m, b, d, part)
    ensures !Skipped(k.meta, b) && InitialState(k, m, b, d) == ScanRuns.Plain(o, d, part.h, part.computed)
  {
    SlotIs(k.meta, b);
    assert CellOf(k.ssmLayout, OwnSlot(k.meta, b), d) == SsmAddr(k.ssmLayout, LoadSlot(k.meta, b), d);
  }

  /** And follows the uninterrupted scan. */
  lemma {:induction false} Follows<S, E, V>(o: ScanRuns.Ops<S, E, V>, k: Kernel<S, E, V>, m: Mem<S, E>, b: nat, d: nat,
                                            part: Part<E, V>, n: nat)
    requires Scheduled(o, k, m, b, d, part) && Finds(o, k, m, b, d, part) && n <= part.scheduled
    ensures !Skipped(k.meta, b) && n <= SeqLen(k.meta, b)
    ensures StateAfter(k, m, b, d, n) == ScanRuns.Plain(o, d, part.h, part.computed + n)
    decreases n
  {
    SlotIs(k.meta, b);
    if n == 0 {
      StartsFrom(o, k, m, b, d, part);
    } else {
      Follows(o, k, m, b, d, part, n - 1);
      Sees(o, k, m, b, d, part, n - 1);
    }
  }

  lemma OutputFollows<S, E, V>(o: ScanRuns.Ops<S, E, V>, k: Kernel<S, E, V>, m: Mem<S, E>, b: nat, d: nat,
                               part: Part<E, V>, pos: nat)
    requires Scheduled(o, k, m, b, d, part) && Finds(o, k, m, b, d, part) && pos < part.scheduled
    ensures !Skipped(k.meta, b) && pos < SeqLen(k.meta, b)
    ensures OutAt(k, m, b, d, pos) == ScanRuns.PlainOut(o, d, part.h, part.computed + pos)
  {
    Follows(o, k, m, b, d, part, pos + 1);
    Sees(o, k, m, b, d, part, pos);
  }

  /** The state a program leaves in its slot. */
  lemma StateLeft<S, E, V>(k: Kernel<S, E, V>, m: Mem<S, E>, b: nat, d: nat)
    requires Fits(k, m, b, d) && Plainly(k.meta) && !Skipped(k.meta, b)
    ensures SeqLen(k.meta, b) >= 0
    ensures var a := CellOf(k.ssmLayout, OwnSlot(k.meta, b), d);
            && 0 <= a < |m.ssm| && SsmWrite(k, Program(b, d), a)
            && Effect(k, m, b, d).ssm[a] == StateAfter(k, m, b, d, SeqLen(k.meta, b))
  {
    var q, a := k.meta, CellOf(k.ssmLayout, OwnSlot(k.meta, b), d);
    SlotIs(q, b);
    TokensWithin(q, b, 1);
    assert a == SsmAddr(k.ssmLayout, StoreSlot(q, b, 0), d);
    assert StoresAt(k, Program(b, d), 0, a);
    assert Stored(k, m, b, d, 1) == Stored(k, m, b, d, 0)[a := StateAfter(k, m, b, d, SeqLen(q, b))];
  }

  /** One row of one launch: with the state so far in its slot, every output is that of the uninterrupted scan,
      and so is the state it leaves there. */
  lemma RowDone<S, E, V>(o: ScanRuns.Ops<S, E, V>, k: Kernel<S, E, V>, m0: Mem<S, E>, progs: set<Program>,
                         m: Mem<S, E>, b: nat, d: nat, part: Part<E, V>)
    requires GridFits(k, m0) && Programs(k, progs) && OutOfPlace(k, m0, progs, m) && Program(b, d) in progs
    requires Scheduled(o, k, m0, b, d, part) && Finds(o, k, m0, b, d, part)
    ensures Done(o, k, m0, m, b, d, part)
  {
    forall pos: nat | pos < part.scheduled ensures OutputAt(o, k, m0, m, b, d, part, pos) {
      RowOutput(o, k, m0, progs, m, b, d, part, pos);
    }
    RowState(o, k, m0, progs, m, b, d, part);
  }

  lemma RowState<S, E, V>(o: ScanRuns.Ops<S, E, V>, k: Kernel<S, E, V>, m0: Mem<S, E>, progs: set<Program>,
                          m: Mem<S, E>, b: nat, d: nat, part: Part<E, V>)
    requires GridFits(k, m0) && Programs(k, progs) && SameShape(m0, m) && SsmOutOfPlace(k, m0, progs, m)
    requires Program(b, d) in progs && Scheduled(o, k, m0, b, d, part) && Finds(o, k, m0, b, d, part)
    ensures HoldsState(o, k, m.ssm, b, d, part.h, part.computed + part.scheduled)
  {
    SlotIs(k.meta, b);
    Follows(o, k, m0, b, d, part, part.scheduled);
    StateLeft(k, m0, b, d);
  }

  lemma RowOutput<S, E, V>(o: ScanRuns.Ops<S, E, V>, k: Kernel<S, E, V>, m0: Mem<S, E>, progs: set<Program>,
                           m: Mem<S, E>, b: nat, d: nat, part: Part<E, V>, pos: nat)
    requires GridFits(k, m0) && Programs(k, progs) && OutOfPlace(k, m0, progs, m) && Program(b, d) in progs
    requires Scheduled(o, k, m0, b, d, part) && Finds(o, k, m0, b, d, part) && pos < part.scheduled
    ensures OutputAt(o, k, m0, m, b, d, part, pos)
  {
    OutputFollows(o, k, m0, b, d, part, pos);
    AddressIs(k.meta, k.deltaLayout, b, d, pos);
    WrittenAt(k, m0, progs, m, b, d, pos, TensorAddr(k.meta, k.deltaLayout, b, d, pos));
    if k.hasZ {
      AddressIs(k.meta, k.zLayout, b, d, pos);
      GatedAt(k, m0, progs, m, b, d, pos, TensorAddr(k.meta, k.zLayout, b, d, pos));
    }
  }

  /** Outputs are where the tensor has them. */
  lemma WrittenAt<S, E, V>(k: Kernel<S, E, V>, m0: Mem<S, E>, progs: set<Program>, m: Mem<S, E>, b: nat, d: nat,
                           pos: nat, a: nat)
    requires GridFits(k, m0) && Programs(k, progs) && SameShape(m0, m) && DeltaOutOfPlace(k, m0, progs, m)
    requires Program(b, d) in progs && Fits(k, m0, b, d) && !Skipped(k.meta, b) && pos < SeqLen(k.meta, b)
    requires a == Base(k.meta, k.deltaLayout, b, d) + pos
    ensures a < |m.delta| && m.delta[a] == OutAt(k, m0, b, d, pos)
  {
    OutputsOf(k, m0, progs, m, Program(b, d), pos);
  }

  lemma GatedAt<S, E, V>(k: Kernel<S, E, V>, m0: Mem<S, E>, progs: set<Program>, m: Mem<S, E>, b: nat, d: nat,
                         pos: nat, z: nat)
    requires GridFits(k, m0) && Programs(k, progs) && SameShape(m0, m) && ZOutOfPlace(k, m0, progs, m) && k.hasZ
    requires Program(b, d) in progs && Fits(k, m0, b, d) && !Skipped(k.meta, b) && pos < SeqLen(k.meta, b)
    requires z == Base(k.meta, k.zLayout, b, d) + pos
    ensures z < |m.z| == |m0.z| && m.z[z] == k.gate(OutAt(k, m0, b, d, pos), m0.z[z])
  {
    GatedOutputsOf(k, m0, progs, m, Program(b, d), pos);
  }

  // ----- the whole batch

  /** No two rows that run have the same slot. */
  ghost predicate OwnSlots(q: Batch)
    requires Plainly(q)
  {
    forall b: nat, b': nat :: b < q.size && b' < q.size && b != b' && !Null(q, b) && !Null(q, b') ==>
      OwnSlot(q, b) != OwnSlot(q, b')
  }

  lemma OwnIsPrivate(q: Batch)
    requires Plainly(q) && OwnSlots(q)
    ensures StoresPrivate(q)
  {
    forall b: nat, c: nat, slot: int, b': nat | RowStores(q, b, c, slot) && b' < q.size && b' != b && !Skipped(q, b')
      ensures (forall c': nat :: !RowStores(q, b', c', slot)) && (HasInit(q, b') ==> slot != LoadSlot(q, b'))
    {
      SlotIs(q, b);
      SlotIs(q, b');
    }
  }

  /** The parts of one row, one per dimension. */
  type Parts<!E, !V> = seq<seq<Part<E, V>>>

  ghost predicate ReadyAt<S, E, V>(o: ScanRuns.Ops<S, E, V>, k: Kernel<S, E, V>, m: Mem<S, E>, parts: Parts<E, V>,
                                   b: nat, d: nat)
    requires Plainly(k.meta) && b < k.meta.size
  {
    Null(k.meta, b) ||
    (&& b < |parts| && d < |parts[b]|
     && Scheduled(o, k, m, b, d, parts[b][d]) && Finds(o, k, m, b, d, parts[b][d]))
  }

  /** Every row that is not null finds its tokens and its state, and no two share a slot. */
  ghost predicate Ready<S, E, V>(o: ScanRuns.Ops<S, E, V>, k: Kernel<S, E, V>, m: Mem<S, E>, parts: Parts<E, V>) {
    && Plainly(k.meta) && OwnSlots(k.meta)
    && forall b: nat, d: nat :: b < k.meta.size && d < k.meta.dim ==> ReadyAt(o, k, m, parts, b, d)
  }

  /** Token `pos` of a null row is as it was. */
  ghost predicate Untouched<S, E, V>(k: Kernel<S, E, V>, m0: Mem<S, E>, m: Mem<S, E>, b: nat, d: nat, pos: nat)
    requires WellFormed(k.meta) && b < k.meta.size
  {
    var a, z := TensorAddr(k.meta, k.deltaLayout, b, d, pos), TensorAddr(k.meta, k.zLayout, b, d, pos);
    && (a < |m0.delta| == |m.delta| ==> m.delta[a] == m0.delta[a])
    && (k.hasZ && z < |m0.z| == |m.z| ==> m.z[z] == m0.z[z])
  }

  ghost predicate ServedAt<S, E, V>(o: ScanRuns.Ops<S, E, V>, k: Kernel<S, E, V>, m0: Mem<S, E>, m: Mem<S, E>,
                                    parts: Parts<E, V>, b: nat, d: nat)
    requires Plainly(k.meta) && b < k.meta.size
  {
    if Null(k.meta, b) then
      forall pos: nat :: pos < SeqLen(k.meta, b) ==> Untouched(k, m0, m, b, d, pos)
    else
      b < |parts| && d < |parts[b]| && Done(o, k, m0, m, b, d, parts[b][d])
  }

  /** A slot that no running row owns keeps its state. */
  ghost predicate SlotKept<S, E, V>(k: Kernel<S, E, V>, m0: Mem<S, E>, m: Mem<S, E>, slot: int, d: nat)
    requires Plainly(k.meta)
  {
    var a := CellOf(k.ssmLayout, slot, d);
    Unowned(k.meta, slot) && 0 <= a < |m0.ssm| == |m.ssm| ==> m.ssm[a] == m0.ssm[a]
  }

  ghost predicate Unowned(q: Batch, slot: int)
    requires Plainly(q)
  {
    forall b: nat :: b < q.size && !Null(q, b) ==> OwnSlot(q, b) != slot
  }

  /** Every row that is not null has run, in every dimension; the others, and all other slots, are as they were. */
  ghost predicate Served<S, E, V>(o: ScanRuns.Ops<S, E, V>, k: Kernel<S, E, V>, m0: Mem<S, E>, m: Mem<S, E>,
                                  parts: Parts<E, V>)
  {
    && Plainly(k.meta) && SameShape(m0, m)
    && (forall b: nat, d: nat :: b < k.meta.size && d < k.meta.dim ==> ServedAt(o, k, m0, m, parts, b, d))
    && (forall slot: int, d: nat :: d < k.meta.dim ==> SlotKept(k, m0, m, slot, d))
  }

  lemma ReadyFits<S, E, V>(o: ScanRuns.Ops<S, E, V>, k: Kernel<S, E, V>, m: Mem<S, E>, parts: Parts<E, V>)
    requires Ready(o, k, m, parts)
    ensures GridFits(k, m)
  {
    forall p: Program | InGrid(k.meta, p) ensures Fits(k, m, p.b, p.d) {
      assert ReadyAt(o, k, m, parts, p.b, p.d);
      SlotIs(k.meta, p.b);
    }
  }

  /** No program runs on the tokens of a null row. */
  lemma NullUntouched<S, E, V>(k: Kernel<S, E, V>, m0: Mem<S, E>, progs: set<Program>, m: Mem<S, E>, b: nat, d: nat,
                               pos: nat)
    requires GridFits(k, m0) && Programs(k, progs) && OutOfPlace(k, m0, progs, m)
    requires Contiguous(k.meta, k.deltaLayout) && (k.hasZ ==> Contiguous(k.meta, k.zLayout))
    requires Plainly(k.meta) && InGrid(k.meta, Program(b, d)) && Null(k.meta, b) && pos < SeqLen(k.meta, b)
    ensures Untouched(k, m0, m, b, d, pos)
  {
    SlotIs(k.meta, b);
    AddressIs(k.meta, k.deltaLayout, b, d, pos);
    var a := TensorAddr(k.meta, k.deltaLayout, b, d, pos);
    forall p | p in progs ensures !DeltaCell(k, p, a) {
      if p != Program(b, d) {
        CellsApart(k.meta, k.deltaLayout, Program(b, d), p, a);
      }
    }
    if k.hasZ {
      AddressIs(k.meta, k.zLayout, b, d, pos);
      var z := TensorAddr(k.meta, k.zLayout, b, d, pos);
      forall p | p in progs ensures !ZCell(k, p, z) {
        if p != Program(b, d) {
          CellsApart(k.meta, k.zLayout, Program(b, d), p, z);
        }
      }
    }
  }

  lemma OtherSlotKept<S, E, V>(k: Kernel<S, E, V>, m0: Mem<S, E>, progs: set<Program>, m: Mem<S, E>, slot: int, d: nat)
    requires GridFits(k, m0) && Programs(k, progs) && OutOfPlace(k, m0, progs, m)
    requires Plainly(k.meta) && DenseStates(k.meta, k.ssmLayout) && d < k.meta.dim
    ensures SlotKept(k, m0, m, slot, d)
  {
    var q, a := k.meta, CellOf(k.ssmLayout, slot, d);
    if Unowned(q, slot) {
      forall p | p in progs ensures !SsmWrite(k, p, a) {
        forall c: nat ensures !StoresAt(k, p, c, a) {
          NotStored(k, p, c, slot, d);
        }
      }
    }
  }

  lemma NotStored<S, E, V>(k: Kernel<S, E, V>, p: Program, c: nat, slot: int, d: nat)
    requires Plainly(k.meta) && DenseStates(k.meta, k.ssmLayout) && d < k.meta.dim && InGrid(k.meta, p)
    requires !Null(k.meta, p.b) ==> OwnSlot(k.meta, p.b) != slot
    ensures !StoresAt(k, p, c, CellOf(k.ssmLayout, slot, d))
  {
    SlotIs(k.meta, p.b);
    if StoresAt(k, p, c, CellOf(k.ssmLayout, slot, d)) {
      SameAddress(k.meta, k.ssmLayout, OwnSlot(k.meta, p.b), p.d, slot, d);
    }
  }

  lemma ReadyIsServed<S, E, V>(o: ScanRuns.Ops<S, E, V>, k: Kernel<S, E, V>, m0: Mem<S, E>, progs: set<Program>,
                               m: Mem<S, E>, parts: Parts<E, V>)
    requires Ready(o, k, m0, parts) && GridFits(k, m0) && Programs(k, progs) && OutOfPlace(k, m0, progs, m)
    requires Contiguous(k.meta, k.deltaLayout) && (k.hasZ ==> Contiguous(k.meta, k.zLayout))
    requires DenseStates(k.meta, k.ssmLayout) && forall p: Program :: InGrid(k.meta, p) ==> p in progs
    ensures Served(o, k, m0, m, parts)
  {
    forall b: nat, d: nat | b < k.meta.size && d < k.meta.dim ensures ServedAt(o, k, m0, m, parts, b, d) {
      assert InGrid(k.meta, Program(b, d)) && ReadyAt(o, k, m0, parts, b, d);
      if Null(k.meta, b) {
        forall pos: nat | pos < SeqLen(k.meta, b) ensures Untouched(k, m0, m, b, d, pos) {
          NullUntouched(k, m0, progs, m, b, d, pos);
        }
      } else {
        RowDone(o, k, m0, progs, m, b, d, parts[b][d]);
      }
    }
    forall slot: int, d: nat | d < k.meta.dim ensures SlotKept(k, m0, m, slot, d) {
      OtherSlotKept(k, m0, progs, m, slot, d);
    }
  }

  /** The launch over real arrays, without prefix caching: all programs of the grid, in any order. */
  method LaunchPlain<S, E, V>(k: Kernel<S, E, V>, order: seq<Program>, delta: array<E>, z: array<E>, ssm: array<S>,
                              ghost o: ScanRuns.Ops<S, E, V>, ghost parts: Parts<E, V>)
    requires Ready(o, k, Mem(delta[..], z[..], ssm[..]), parts) && DenseStates(k.meta, k.ssmLayout)
    requires Contiguous(k.meta, k.deltaLayout) && (k.hasZ ==> Contiguous(k.meta, k.zLayout))
    requires Schedule(k, order) && forall p: Program :: InGrid(k.meta, p) ==> p in order
    requires delta != z && ssm as object != delta && ssm as object != z
    modifies delta, z, ssm
    ensures Served(o, k, old(Mem(delta[..], z[..], ssm[..])), Mem(delta[..], z[..], ssm[..]), parts)
  {
    ghost var m0 := Mem(delta[..], z[..], ssm[..]);
    ReadyFits(o, k, m0, parts);
    OwnIsPrivate(k.meta);
    LauncherSeparates(k);
    Launch(k, order, delta, z, ssm);
    ReadyIsServed(o, k, m0, Members(order), Mem(delta[..], z[..], ssm[..]), parts);
  }

  // ----- runs of launches

  /** A launch in which row `b` runs `scheduled` tokens of the request. */
  datatype Turn<!S, !E, !V> = Turn(k: Kernel<S, E, V>, before: Mem<S, E>, after: Mem<S, E>, b: nat, scheduled: nat)

  /** `after` is what the whole grid leaves. */
  ghost predicate Launched<S, E, V>(t: Turn<S, E, V>) {
    && GridFits(t.k, t.before)
    && exists progs :: LaunchedBy(t, progs)
  }

  ghost predicate LaunchedBy<S, E, V>(t: Turn<S, E, V>, progs: set<Program>)
    requires GridFits(t.k, t.before)
  {
    && Programs(t.k, progs) && (forall p: Program :: InGrid(t.k.meta, p) ==> p in progs)
    && OutOfPlace(t.k, t.before, progs, t.after)
  }

  function Computed<S, E, V>(turns: seq<Turn<S, E, V>>, i: nat): nat
    requires i <= |turns|
  {
    if i == 0 then 0 else Computed(turns, i - 1) + turns[i - 1].scheduled
  }

  /** Turn `i` runs the tokens after those computed so far, and finds in its slot what the turn before left
      there. Other launches may come in between, and the row, the slot and the layout may change, as long as the
      state is still there. */
  ghost predicate TurnAt<S, E, V>(o: ScanRuns.Ops<S, E, V>, d: nat, h: seq<Token<E, V>>, turns: seq<Turn<S, E, V>>,
                                  i: nat)
    requires i < |turns|
  {
    && TurnFrom(o, d, h, Computed(turns, i), turns[i])
    && (i > 0 ==> SameState(turns[i - 1], turns[i], d))
  }

  ghost predicate TurnFrom<S, E, V>(o: ScanRuns.Ops<S, E, V>, d: nat, h: seq<Token<E, V>>, computed: nat,
                                    t: Turn<S, E, V>) {
    && Launched(t) && d < t.k.meta.dim && t.b < t.k.meta.size
    && Scheduled(o, t.k, t.before, t.b, d, Part(h, computed, t.scheduled))
  }

  ghost predicate SameState<S, E, V>(t: Turn<S, E, V>, t': Turn<S, E, V>, d: nat) {
    && Plainly(t.k.meta) && Plainly(t'.k.meta) && t.b < t.k.meta.size && t'.b < t'.k.meta.size
    && var a := CellOf(t.k.ssmLayout, OwnSlot(t.k.meta, t.b), d);
       var a' := CellOf(t'.k.ssmLayout, OwnSlot(t'.k.meta, t'.b), d);
       0 <= a < |t.after.ssm| && 0 <= a' < |t'.before.ssm| && t'.before.ssm[a'] == t.after.ssm[a]
  }

  ghost predicate DoneAt<S, E, V>(o: ScanRuns.Ops<S, E, V>, d: nat, h: seq<Token<E, V>>, turns: seq<Turn<S, E, V>>,
                                  i: nat)
    requires i < |turns|
  {
    var t := turns[i];
    Done(o, t.k, t.before, t.after, t.b, d, Part(h, Computed(turns, i), t.scheduled))
  }

  lemma TurnDone<S, E, V>(o: ScanRuns.Ops<S, E, V>, d: nat, t: Turn<S, E, V>, part: Part<E, V>)
    requires Launched(t) && d < t.k.meta.dim && t.b < t.k.meta.size
    requires Scheduled(o, t.k, t.before, t.b, d, part) && Finds(o, t.k, t.before, t.b, d, part)
    ensures Done(o, t.k, t.before, t.after, t.b, d, part)
  {
    var progs :| LaunchedBy(t, progs);
    assert InGrid(t.k.meta, Program(t.b, d));
    RowDone(o, t.k, t.before, progs, t.after, t.b, d, part);
  }

  lemma Handed<S, E, V>(o: ScanRuns.Ops<S, E, V>, d: nat, t: Turn<S, E, V>, t': Turn<S, E, V>, part: Part<E, V>,
                        scheduled: nat)
    requires SameState(t, t', d) && Done(o, t.k, t.before, t.after, t.b, d, part)
    ensures Finds(o, t'.k, t'.before, t'.b, d, Part(part.h, part.computed + part.scheduled, scheduled))
  {
  }

  /** However a history is split over launches, every launch computes what one uninterrupted scan computes. */
  lemma {:induction false} TurnsDone<S, E, V>(o: ScanRuns.Ops<S, E, V>, d: nat, h: seq<Token<E, V>>,
                                              turns: seq<Turn<S, E, V>>, i: nat)
    requires i < |turns| && forall j: nat :: j < |turns| ==> TurnAt(o, d, h, turns, j)
    ensures DoneAt(o, d, h, turns, i)
    decreases i
  {
    assert TurnAt(o, d, h, turns, i);
    var part := Part(h, Computed(turns, i), turns[i].scheduled);
    if i > 0 {
      TurnsDone(o, d, h, turns, i - 1);
      Handed(o, d, turns[i - 1], turns[i], Part(h, Computed(turns, i - 1), turns[i - 1].scheduled), part.scheduled);
    }
    TurnDone(o, d, turns[i], part);
  }
}
