/** Prefix caching: a request whose tokens arrive over any number of calls, each resuming from
    the state cache, computes what one uninterrupted scan of its history computes. */
module ScanRuns {
  import opened ScanKernel
  import opened ScanSchedule
  import opened ScanCache
  import ScanLayout

  // ----- a request's history and its cached states

  datatype Ops<!S, !E, !V> = Ops(zero: S, step: (nat, S, Token<E, V>) -> S, emit: (nat, S, Token<E, V>) -> E)

  /** The state after the first `n` tokens of `h`, scanned from the start without a break. */
  function Plain<S, E, V>(o: Ops<S, E, V>, d: nat, h: seq<Token<E, V>>, n: nat): S
    requires n <= |h|
  {
    if n == 0 then o.zero else o.step(d, Plain(o, d, h, n - 1), h[n - 1])
  }

  function PlainOut<S, E, V>(o: Ops<S, E, V>, d: nat, h: seq<Token<E, V>>, i: nat): E
    requires i < |h|
  {
    o.emit(d, Plain(o, d, h, i + 1), h[i])
  }

  /** `cells[col]` is the state cached in column `col`. Complete blocks hold the state at their
      end, and the column of the last computed token holds the state after it. */
  ghost predicate Holds<S, E, V>(o: Ops<S, E, V>, d: nat, h: seq<Token<E, V>>, size: nat, computed: nat,
                                 cells: seq<S>) {
    && size > 0 && computed <= |h|
    && (forall col: nat :: InBlock(col, computed, size) ==>
          col < |cells| && cells[col] == Plain(o, d, h, computed))
    && (forall col :: 0 <= col < |cells| && Blocks(col + 1, size) <= computed ==>
          cells[col] == Plain(o, d, h, Blocks(col + 1, size)))
  }

  ghost predicate ValidSlots<S>(l: Layout, ssm: seq<S>, slots: seq<int>, d: nat) {
    forall col :: 0 <= col < |slots| ==> 0 <= SsmAddr(l, slots[col], d) < |ssm|
  }

  ghost function Cells<S>(l: Layout, ssm: seq<S>, slots: seq<int>, d: nat): (r: seq<S>)
    requires ValidSlots(l, ssm, slots, d)
    ensures |r| == |slots|
    ensures forall col :: 0 <= col < |slots| ==> r[col] == ssm[SsmAddr(l, slots[col], d)]
  {
    seq(|slots|, col requires 0 <= col < |slots| => ssm[SsmAddr(l, slots[col], d)])
  }

  // ----- one call

  /** Row `b` of this launch runs tokens computed .. computed + scheduled of history `h`, and
      `slots` are the request's own blocks. */
  ghost predicate ValidCall<S, E, V>(o: Ops<S, E, V>, d: nat, h: seq<Token<E, V>>, slots: seq<int>,
                                     computed: nat, scheduled: nat, f: nat, k: Kernel<S, E, V>, m: Mem<S, E>, b: nat)
  {
    && Fits(k, m, b, d) && !Skipped(k.meta, b)
    && Ops(k.zero, k.step, k.emit) == o
    && RowReady(k.meta, b, computed, scheduled, f)
    && computed + scheduled <= |h|
    && (forall pos :: 0 <= pos < scheduled ==> TokenAt(k, m, b, d, pos) == h[computed + pos])
    && OwnSlots(k, m, b, d, slots)
  }

  ghost predicate OwnSlots<S, E, V>(k: Kernel<S, E, V>, m: Mem<S, E>, b: nat, d: nat, slots: seq<int>)
    requires WellFormed(k.meta) && k.meta.cacheEnabled && b < k.meta.size
  {
    && slots <= k.meta.table[b] && k.meta.blockLast[b] < |slots|
    && (forall i, j :: 0 <= i < j < |slots| ==> slots[i] != slots[j])
    && ScanLayout.DenseStates(k.meta, k.ssmLayout)
    && ValidSlots(k.ssmLayout, m.ssm, slots, d)
  }

  lemma Resume<S, E, V>(o: Ops<S, E, V>, d: nat, h: seq<Token<E, V>>, slots: seq<int>,
                        computed: nat, scheduled: nat, f: nat, k: Kernel<S, E, V>, m: Mem<S, E>, b: nat)
    requires ValidCall(o, d, h, slots, computed, scheduled, f, k, m, b)
    requires Holds(o, d, h, k.meta.blockSize, computed, Cells(k.ssmLayout, m.ssm, slots, d))
    ensures InitialState(k, m, b, d) == Plain(o, d, h, computed)
  {
  }

  /** The kernel's recurrence, resumed at `computed`, follows the uninterrupted scan. */
  lemma {:induction false} StatesAgree<S, E, V>(o: Ops<S, E, V>, d: nat, h: seq<Token<E, V>>, slots: seq<int>,
                             computed: nat, scheduled: nat, f: nat, k: Kernel<S, E, V>, m: Mem<S, E>, b: nat, n: nat)
    requires ValidCall(o, d, h, slots, computed, scheduled, f, k, m, b) && n <= scheduled
    requires InitialState(k, m, b, d) == Plain(o, d, h, computed)
    ensures StateAfter(k, m, b, d, n) == Plain(o, d, h, computed + n)
    decreases n
  {
    if n > 0 {
      StatesAgree(o, d, h, slots, computed, scheduled, f, k, m, b, n - 1);
      assert TokenAt(k, m, b, d, n - 1) == h[computed + (n - 1)];
    }
  }

  /** The token counts at which the first `c` chunks of row `b` end. */
  ghost function Marks(q: Batch, b: nat, computed: nat, c: nat): (r: seq<nat>)
    requires WellFormed(q) && b < q.size && c <= NumChunks(q, b)
    ensures |r| == c
  {
    if c == 0 then [] else Marks(q, b, computed, c - 1) + [computed + TokensBefore(q, b, c)]
  }

  /** Columns f, f + 1, ... hold the states at `marks`; the others are as before. */
  ghost predicate StoredUpTo<S, E, V>(o: Ops<S, E, V>, d: nat, h: seq<Token<E, V>>, f: nat, marks: seq<nat>,
                                      before: seq<S>, cells: seq<S>)
  {
    && |cells| == |before| && f + |marks| <= |cells|
    && (forall i :: 0 <= i < |marks| ==> marks[i] <= |h| && cells[f + i] == Plain(o, d, h, marks[i]))
    && (forall col :: 0 <= col < |cells| && !(f <= col < f + |marks|) ==> cells[col] == before[col])
  }

  lemma WriteCell<S>(q: Batch, l: Layout, ssm: seq<S>, slots: seq<int>, d: nat, col: nat, v: S)
    requires ValidSlots(l, ssm, slots, d) && col < |slots| && d < q.dim
    requires forall i, j :: 0 <= i < j < |slots| ==> slots[i] != slots[j]
    requires ScanLayout.DenseStates(q, l)
    ensures var after := ssm[SsmAddr(l, slots[col], d) := v];
            ValidSlots(l, after, slots, d) && Cells(l, after, slots, d) == Cells(l, ssm, slots, d)[col := v]
  {
    var after := ssm[SsmAddr(l, slots[col], d) := v];
    forall i | 0 <= i < |slots| && i != col ensures after[SsmAddr(l, slots[i], d)] == ssm[SsmAddr(l, slots[i], d)] {
      if SsmAddr(l, slots[i], d) == SsmAddr(l, slots[col], d) {
        ScanLayout.SameAddress(q, l, slots[i], d, slots[col], d);
        assert false;
      }
    }
    assert Cells(l, after, slots, d) == Cells(l, ssm, slots, d)[col := v];
  }

  lemma StoreOne<S, E, V>(o: Ops<S, E, V>, d: nat, h: seq<Token<E, V>>, f: nat, marks: seq<nat>, mark: nat,
                          before: seq<S>, cells: seq<S>)
    requires StoredUpTo(o, d, h, f, marks, before, cells)
    requires f + |marks| < |cells| && mark <= |h|
    ensures StoredUpTo(o, d, h, f, marks + [mark], before, cells[f + |marks| := Plain(o, d, h, mark)])
  {
    var after := cells[f + |marks| := Plain(o, d, h, mark)];
    forall i | 0 <= i < |marks| + 1
      ensures (marks + [mark])[i] <= |h| && after[f + i] == Plain(o, d, h, (marks + [mark])[i])
    {
      if i < |marks| {
        assert cells[f + i] == Plain(o, d, h, marks[i]);
      }
    }
  }

  lemma {:induction false} StoredCells<S, E, V>(o: Ops<S, E, V>, d: nat, h: seq<Token<E, V>>, slots: seq<int>,
                             computed: nat, scheduled: nat, f: nat, k: Kernel<S, E, V>, m: Mem<S, E>, b: nat, c: nat)
    requires ValidCall(o, d, h, slots, computed, scheduled, f, k, m, b) && c <= NumChunks(k.meta, b)
    requires InitialState(k, m, b, d) == Plain(o, d, h, computed)
    ensures ValidSlots(k.ssmLayout, Stored(k, m, b, d, c), slots, d)
    ensures StoredUpTo(o, d, h, f, Marks(k.meta, b, computed, c),
                       Cells(k.ssmLayout, m.ssm, slots, d), Cells(k.ssmLayout, Stored(k, m, b, d, c), slots, d))
    decreases c
  {
    if c > 0 {
      StoredCells(o, d, h, slots, computed, scheduled, f, k, m, b, c - 1);
      StoredNext(o, d, h, slots, computed, scheduled, f, k, m, b, c);
    }
  }

  lemma StoredNext<S, E, V>(o: Ops<S, E, V>, d: nat, h: seq<Token<E, V>>, slots: seq<int>,
                            computed: nat, scheduled: nat, f: nat, k: Kernel<S, E, V>, m: Mem<S, E>, b: nat, c: nat)
    requires ValidCall(o, d, h, slots, computed, scheduled, f, k, m, b) && 0 < c <= NumChunks(k.meta, b)
    requires InitialState(k, m, b, d) == Plain(o, d, h, computed)
    requires ValidSlots(k.ssmLayout, Stored(k, m, b, d, c - 1), slots, d)
    requires StoredUpTo(o, d, h, f, Marks(k.meta, b, computed, c - 1),
                        Cells(k.ssmLayout, m.ssm, slots, d), Cells(k.ssmLayout, Stored(k, m, b, d, c - 1), slots, d))
    ensures ValidSlots(k.ssmLayout, Stored(k, m, b, d, c), slots, d)
    ensures StoredUpTo(o, d, h, f, Marks(k.meta, b, computed, c),
                       Cells(k.ssmLayout, m.ssm, slots, d), Cells(k.ssmLayout, Stored(k, m, b, d, c), slots, d))
  {
    TokensWithin(k.meta, b, c);
    var n := TokensBefore(k.meta, b, c);
    StatesAgree(o, d, h, slots, computed, scheduled, f, k, m, b, n);
    var last := Stored(k, m, b, d, c - 1);
    assert StoreColumn(k.meta, b, c - 1) == f + (c - 1);
    assert Stored(k, m, b, d, c) == last[SsmAddr(k.ssmLayout, slots[f + c - 1], d) := Plain(o, d, h, computed + n)];
    WriteCell(k.meta, k.ssmLayout, last, slots, d, f + c - 1, Plain(o, d, h, computed + n));
    StoreOne(o, d, h, f, Marks(k.meta, b, computed, c - 1), computed + n,
             Cells(k.ssmLayout, m.ssm, slots, d), Cells(k.ssmLayout, last, slots, d));
  }

  // ----- what a call leaves in the cache

  /** The marks of a call that completes blocks f, f + 1, ... and ends at `total`. */
  ghost predicate BlockMarks(marks: seq<nat>, f: nat, size: nat, total: nat) {
    && size > 0 && |marks| > 0 && marks[|marks| - 1] == total
    && InBlock(f + |marks| - 1, total, size)
    && (forall i :: 0 <= i < |marks| - 1 ==> marks[i] == Blocks(f + i + 1, size))
  }

  lemma {:induction false} MarksAt(q: Batch, b: nat, computed: nat, c: nat, i: nat)
    requires WellFormed(q) && b < q.size && i < c <= NumChunks(q, b)
    ensures Marks(q, b, computed, c)[i] == computed + TokensBefore(q, b, i + 1)
    decreases c
  {
    if i < c - 1 {
      MarksAt(q, b, computed, c - 1, i);
    }
  }

  lemma ReadyMarks(q: Batch, b: nat, computed: nat, scheduled: nat, f: nat)
    requires RowReady(q, b, computed, scheduled, f)
    ensures BlockMarks(Marks(q, b, computed, NumChunks(q, b)), f, q.blockSize, computed + scheduled)
  {
    var n := NumChunks(q, b);
    TokensWithin(q, b, n);
    MarksAt(q, b, computed, n, n - 1);
    forall i | 0 <= i < n - 1 ensures Marks(q, b, computed, n)[i] == Blocks(f + i + 1, q.blockSize) {
      MarksAt(q, b, computed, n, i);
      assert computed + TokensBefore(q, b, i + 1) == Blocks(f + (i + 1), q.blockSize);
    }
  }

  /** Once all chunks have stored, the columns are right for a request with `total` tokens. */
  lemma HoldsAfter<S, E, V>(o: Ops<S, E, V>, d: nat, h: seq<Token<E, V>>, size: nat, computed: nat, total: nat, f: nat,
                            marks: seq<nat>, before: seq<S>, cells: seq<S>)
    requires Holds(o, d, h, size, computed, before) && InBlock(f, computed + 1, size) && total <= |h|
    requires BlockMarks(marks, f, size, total)
    requires StoredUpTo(o, d, h, f, marks, before, cells)
    ensures Holds(o, d, h, size, total, cells)
  {
    var n := |marks|;
    assert cells[f + (n - 1)] == Plain(o, d, h, marks[n - 1]);
    forall col: nat | InBlock(col, total, size) ensures col < |cells| && cells[col] == Plain(o, d, h, total) {
      OneBlock(col, f + n - 1, total, size);
    }
    forall col | 0 <= col < |cells| && Blocks(col + 1, size) <= total
      ensures cells[col] == Plain(o, d, h, Blocks(col + 1, size))
    {
      BlockCases(computed, total, size, f, f + n - 1, col);
      if col < f {
        assert cells[col] == before[col];
      } else {
        assert cells[f + (col - f)] == Plain(o, d, h, marks[col - f]);
      }
    }
  }

  /** A block that ends within the first `total` tokens either ended before this call, is one of
      the blocks this call completes, or is the last and ends exactly there. */
  lemma BlockCases(computed: nat, total: nat, size: nat, f: nat, last: nat, col: nat)
    requires size > 0 && InBlock(f, computed + 1, size) && InBlock(last, total, size) && Blocks(col + 1, size) <= total
    ensures col < f ==> Blocks(col + 1, size) <= computed
    ensures col <= last
    ensures col == last ==> Blocks(col + 1, size) == total
  {
    if col < f {
      BlocksApart(col, f, size);
    }
    if last < col {
      BlocksApart(last, col, size);
      assert false;
    }
  }

  /** Cache agrees with recomputation, one call: the outputs are those of the uninterrupted scan. */
  lemma CallOutputs<S, E, V>(o: Ops<S, E, V>, d: nat, h: seq<Token<E, V>>, slots: seq<int>,
                             computed: nat, scheduled: nat, f: nat, k: Kernel<S, E, V>, m: Mem<S, E>, b: nat, pos: nat)
    requires ValidCall(o, d, h, slots, computed, scheduled, f, k, m, b) && pos < scheduled
    requires Holds(o, d, h, k.meta.blockSize, computed, Cells(k.ssmLayout, m.ssm, slots, d))
    ensures OutAt(k, m, b, d, pos) == PlainOut(o, d, h, computed + pos)
  {
    Resume(o, d, h, slots, computed, scheduled, f, k, m, b);
    StatesAgree(o, d, h, slots, computed, scheduled, f, k, m, b, pos + 1);
  }

  /** ... and the cache is again right for everything scanned so far. */
  lemma CallLeaves<S, E, V>(o: Ops<S, E, V>, d: nat, h: seq<Token<E, V>>, slots: seq<int>,
                            computed: nat, scheduled: nat, f: nat, k: Kernel<S, E, V>, m: Mem<S, E>, b: nat)
    requires ValidCall(o, d, h, slots, computed, scheduled, f, k, m, b)
    requires Holds(o, d, h, k.meta.blockSize, computed, Cells(k.ssmLayout, m.ssm, slots, d))
    ensures ValidSlots(k.ssmLayout, Effect(k, m, b, d).ssm, slots, d)
    ensures Holds(o, d, h, k.meta.blockSize, computed + scheduled,
                  Cells(k.ssmLayout, Effect(k, m, b, d).ssm, slots, d))
  {
    StoredHolds(o, d, h, slots, computed, scheduled, f, k, m, b);
    assert Effect(k, m, b, d).ssm == Stored(k, m, b, d, NumChunks(k.meta, b));
  }

  lemma StoredHolds<S, E, V>(o: Ops<S, E, V>, d: nat, h: seq<Token<E, V>>, slots: seq<int>,
                             computed: nat, scheduled: nat, f: nat, k: Kernel<S, E, V>, m: Mem<S, E>, b: nat)
    requires ValidCall(o, d, h, slots, computed, scheduled, f, k, m, b)
    requires Holds(o, d, h, k.meta.blockSize, computed, Cells(k.ssmLayout, m.ssm, slots, d))
    ensures var after := Stored(k, m, b, d, NumChunks(k.meta, b));
            && ValidSlots(k.ssmLayout, after, slots, d)
            && Holds(o, d, h, k.meta.blockSize, computed + scheduled, Cells(k.ssmLayout, after, slots, d))
  {
    Resume(o, d, h, slots, computed, scheduled, f, k, m, b);
    var n := NumChunks(k.meta, b);
    StoredCells(o, d, h, slots, computed, scheduled, f, k, m, b, n);
    ReadyMarks(k.meta, b, computed, scheduled, f);
    HoldsAfter(o, d, h, k.meta.blockSize, computed, computed + scheduled, f, Marks(k.meta, b, computed, n),
               Cells(k.ssmLayout, m.ssm, slots, d), Cells(k.ssmLayout, Stored(k, m, b, d, n), slots, d));
  }

  // ----- whole runs

  datatype Call<!S, !E, !V> = Call(k: Kernel<S, E, V>, m: Mem<S, E>, b: nat, scheduled: nat, block: nat)

  function Computed<S, E, V>(start: nat, calls: seq<Call<S, E, V>>, i: nat): nat
    requires i <= |calls|
  {
    if i == 0 then start else Computed(start, calls, i - 1) + calls[i - 1].scheduled
  }

  /** This call runs the tokens after the first `computed`; it finds `before` in the request's
      columns and leaves `after` there. */
  ghost predicate CallFrom<S, E, V>(o: Ops<S, E, V>, d: nat, h: seq<Token<E, V>>, slots: seq<int>, size: nat,
                                    computed: nat, call: Call<S, E, V>, before: seq<S>, after: seq<S>)
  {
    && call.k.meta.blockSize == size
    && ValidCall(o, d, h, slots, computed, call.scheduled, call.block, call.k, call.m, call.b)
    && before == Cells(call.k.ssmLayout, call.m.ssm, slots, d)
    && ValidSlots(call.k.ssmLayout, Effect(call.k, call.m, call.b, d).ssm, slots, d)
    && after == Cells(call.k.ssmLayout, Effect(call.k, call.m, call.b, d).ssm, slots, d)
  }

  /** A run of calls for one request; `cells[i]` is what call `i` finds in the request's own blocks.
      Other launches may run between two calls as long as they leave those blocks alone. */
  ghost predicate Run<S, E, V>(o: Ops<S, E, V>, d: nat, h: seq<Token<E, V>>, slots: seq<int>, size: nat,
                               start: nat, calls: seq<Call<S, E, V>>, cells: seq<seq<S>>)
  {
    && |cells| == |calls| + 1
    && forall i :: 0 <= i < |calls| ==> RunAt(o, d, h, slots, size, start, calls, cells, i)
  }

  ghost predicate RunAt<S, E, V>(o: Ops<S, E, V>, d: nat, h: seq<Token<E, V>>, slots: seq<int>, size: nat,
                                 start: nat, calls: seq<Call<S, E, V>>, cells: seq<seq<S>>, i: nat)
    requires i < |calls| && |cells| == |calls| + 1
  {
    CallFrom(o, d, h, slots, size, Computed(start, calls, i), calls[i], cells[i], cells[i + 1])
  }

  lemma CallKeeps<S, E, V>(o: Ops<S, E, V>, d: nat, h: seq<Token<E, V>>, slots: seq<int>, size: nat,
                           computed: nat, call: Call<S, E, V>, before: seq<S>, after: seq<S>)
    requires CallFrom(o, d, h, slots, size, computed, call, before, after)
    requires Holds(o, d, h, size, computed, before)
    ensures Holds(o, d, h, size, computed + call.scheduled, after)
  {
    CallLeaves(o, d, h, slots, computed, call.scheduled, call.block, call.k, call.m, call.b);
  }

  /** However a history is split over calls, the cache is right before and after every call. */
  lemma {:induction false} RunHolds<S, E, V>(o: Ops<S, E, V>, d: nat, h: seq<Token<E, V>>, slots: seq<int>, size: nat,
                                             start: nat, calls: seq<Call<S, E, V>>, cells: seq<seq<S>>, i: nat)
    requires Run(o, d, h, slots, size, start, calls, cells) && i <= |calls|
    requires Holds(o, d, h, size, start, cells[0])
    ensures Holds(o, d, h, size, Computed(start, calls, i), cells[i])
    decreases i
  {
    if i > 0 {
      RunHolds(o, d, h, slots, size, start, calls, cells, i - 1);
      RunStep(o, d, h, slots, size, start, calls, cells, i - 1);
    }
  }

  lemma RunStep<S, E, V>(o: Ops<S, E, V>, d: nat, h: seq<Token<E, V>>, slots: seq<int>, size: nat,
                         start: nat, calls: seq<Call<S, E, V>>, cells: seq<seq<S>>, i: nat)
    requires i < |calls| && |cells| == |calls| + 1 && RunAt(o, d, h, slots, size, start, calls, cells, i)
    requires Holds(o, d, h, size, Computed(start, calls, i), cells[i])
    ensures Holds(o, d, h, size, Computed(start, calls, i + 1), cells[i + 1])
  {
    CallKeeps(o, d, h, slots, size, Computed(start, calls, i), calls[i], cells[i], cells[i + 1]);
  }

  /** Every output of a call is the uninterrupted scan's output for the same token. */
  ghost predicate OutputsAgree<S, E, V>(o: Ops<S, E, V>, d: nat, h: seq<Token<E, V>>, computed: nat, call: Call<S, E,
                                        V>) {
    && Fits(call.k, call.m, call.b, d) && !Skipped(call.k.meta, call.b)
    && SeqLen(call.k.meta, call.b) == call.scheduled && computed + call.scheduled <= |h|
    && forall pos :: 0 <= pos < call.scheduled ==>
         OutAt(call.k, call.m, call.b, d, pos) == PlainOut(o, d, h, computed + pos)
  }

  lemma RightOutputs<S, E, V>(o: Ops<S, E, V>, d: nat, h: seq<Token<E, V>>, slots: seq<int>, size: nat,
                              computed: nat, call: Call<S, E, V>, before: seq<S>, after: seq<S>)
    requires CallFrom(o, d, h, slots, size, computed, call, before, after)
    requires Holds(o, d, h, size, computed, before)
    ensures OutputsAgree(o, d, h, computed, call)
  {
    forall pos | 0 <= pos < call.scheduled
      ensures OutAt(call.k, call.m, call.b, d, pos) == PlainOut(o, d, h, computed + pos)
    {
      CallOutputs(o, d, h, slots, computed, call.scheduled, call.block, call.k, call.m, call.b, pos);
    }
  }

  /** Cache agrees with recomputation, whole runs: token for token, the outputs are those of one
      uninterrupted scan of the history. */
  lemma RunAgrees<S, E, V>(o: Ops<S, E, V>, d: nat, h: seq<Token<E, V>>, slots: seq<int>, size: nat,
                           start: nat, calls: seq<Call<S, E, V>>, cells: seq<seq<S>>, i: nat)
    requires Run(o, d, h, slots, size, start, calls, cells) && i < |calls|
    requires Holds(o, d, h, size, start, cells[0])
    ensures OutputsAgree(o, d, h, Computed(start, calls, i), calls[i])
  {
    RunHolds(o, d, h, slots, size, start, calls, cells, i);
    assert RunAt(o, d, h, slots, size, start, calls, cells, i);
    RightOutputs(o, d, h, slots, size, Computed(start, calls, i), calls[i], cells[i], cells[i + 1]);
  }

  // ----- prefix hits

  lemma {:induction false} PlainPrefix<S, E, V>(o: Ops<S, E, V>, d: nat, h: seq<Token<E, V>>, g: seq<Token<E, V>>,
                                                n: nat)
    requires n <= |h| && n <= |g| && h[..n] == g[..n]
    ensures Plain(o, d, h, n) == Plain(o, d, g, n)
    decreases n
  {
    if n > 0 {
      assert h[..n - 1] == h[..n][..n - 1] == g[..n][..n - 1] == g[..n - 1];
      assert h[n - 1] == h[..n][n - 1] == g[..n][n - 1] == g[n - 1];
      PlainPrefix(o, d, h, g, n - 1);
    }
  }

  /** A request may start from any complete block cached by another request with the same prefix. */
  lemma PrefixHit<S, E, V>(o: Ops<S, E, V>, d: nat, h: seq<Token<E, V>>, g: seq<Token<E, V>>, size: nat,
                           computed: nat, col: nat, cells: seq<S>)
    requires Holds(o, d, h, size, computed, cells) && Blocks(col + 1, size) <= computed && col < |cells|
    requires Blocks(col + 1, size) <= |g| && h[..Blocks(col + 1, size)] == g[..Blocks(col + 1, size)]
    ensures Holds(o, d, g, size, Blocks(col + 1, size), cells)
  {
    var n := Blocks(col + 1, size);
    assert InBlock(col, n, size);
    PlainPrefix(o, d, h, g, n);
    forall c: nat | InBlock(c, n, size) ensures c < |cells| && cells[c] == Plain(o, d, g, n) {
      OneBlock(c, col, n, size);
    }
    forall c | 0 <= c < |cells| && Blocks(c + 1, size) <= n ensures cells[c] == Plain(o, d, g, Blocks(c + 1, size)) {
      var e := Blocks(c + 1, size);
      assert h[..e] == h[..n][..e] == g[..n][..e] == g[..e];
      PlainPrefix(o, d, h, g, e);
    }
  }

  /** An empty cache is right for a request nothing has been computed for. */
  lemma FreshRequest<S, E, V>(o: Ops<S, E, V>, d: nat, h: seq<Token<E, V>>, size: nat, cells: seq<S>)
    requires size > 0
    ensures Holds(o, d, h, size, 0, cells)
  {
  }
}
