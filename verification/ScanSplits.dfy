/** Every history can be scanned in every split: for each way of cutting a history into calls there are
    launches that run it, and they compute what one uninterrupted scan computes. */
module ScanSplits {
  import opened Wrappers
  import opened ScanKernel
  import opened ScanSchedule
  import opened ScanCache
  import opened ScanRuns
  import opened Sums

  // ----- a launch with one request, whose blocks are numbered from 0

  function Numbered(n: nat): (s: seq<int>)
    ensures |s| == n && forall i :: 0 <= i < n ==> s[i] == i
  {
    seq(n, i => i)
  }

  ghost function OffsetsOf(lens: seq<nat>): (cu: seq<nat>)
    ensures |cu| == |lens| + 1 && Offsets(cu, lens)
  {
    seq(|lens| + 1, i requires 0 <= i <= |lens| => Sum(lens[..i]))
  }

  ghost function Alone(size: nat, computed: nat, scheduled: nat, columns: nat): Batch
    requires size > 0
  {
    var row := ChunkLens(computed, scheduled, size);
    Batch(
      true, 1, 1, 1, [0, scheduled], 0, true, true, [Numbered(columns)], -1, Some([computed > 0]), size,
      [LastBlock(computed + 1, size)], [LastBlock(computed + scheduled, size)], [LastBlock(computed, size)],
      OffsetsOf(row), [if row == [] then 0 else |row| - 1])
  }

  lemma AloneIsBuilt(size: nat, computed: nat, scheduled: nat, columns: nat)
    requires size > 0 && scheduled > 0 && LastBlock(computed + scheduled, size) < columns
    ensures BuiltFrom(Alone(size, computed, scheduled, columns), [computed], [ChunkLens(computed, scheduled, size)])
  {
    var q, row := Alone(size, computed, scheduled, columns), ChunkLens(computed, scheduled, size);
    var rows := [row];
    RowFromShape(computed % size, scheduled, size);
    assert Flat(rows, 1) == [] + row == row;
    assert RowIndexed(q, [computed], 0);
    assert RowBuilt(q, [computed], rows, 0);
  }

  function FirstOfTwo<E>(x: E, y: E): E {
    x
  }

  ghost function KernelFor<S, E, V>(o: Ops<S, E, V>, h: seq<Token<E, V>>, size: nat, computed: nat, scheduled: nat,
                                    columns: nat): Kernel<S, E, V>
    requires size > 0 && computed + scheduled <= |h|
  {
    var flat := Layout(1, scheduled);
    Kernel(
      o.zero, o.step, o.emit, FirstOfTwo,
      seq(scheduled, i requires 0 <= i < scheduled => h[computed + i].u),
      seq(scheduled, i requires 0 <= i < scheduled => h[computed + i].b),
      seq(scheduled, i requires 0 <= i < scheduled => h[computed + i].c),
      flat, flat, flat, flat, flat, Layout(1, 1), false, Alone(size, computed, scheduled, columns))
  }

  ghost function MemFor<S, E, V>(h: seq<Token<E, V>>, computed: nat, scheduled: nat, cells: seq<S>): Mem<S, E>
    requires computed + scheduled <= |h|
  {
    Mem(seq(scheduled, i requires 0 <= i < scheduled => h[computed + i].delta), [], cells)
  }

  lemma ReadyBlock(q: Batch, computed: seq<nat>, rows: seq<seq<nat>>, b: nat) returns (f: nat)
    requires BuiltFrom(q, computed, rows) && b < q.size
    ensures RowReady(q, b, computed[b], NewTokens(computed, q.starts, b), f)
  {
    f := computed[b] / q.blockSize;
    BuiltIsReady(q, computed, rows, b);
  }

  lemma AloneIsReady(size: nat, computed: nat, scheduled: nat, columns: nat) returns (f: nat)
    requires size > 0 && scheduled > 0 && LastBlock(computed + scheduled, size) < columns
    ensures RowReady(Alone(size, computed, scheduled, columns), 0, computed, scheduled, f)
  {
    var q, rows := Alone(size, computed, scheduled, columns), [ChunkLens(computed, scheduled, size)];
    AloneIsBuilt(size, computed, scheduled, columns);
    f := ReadyBlock(q, [computed], rows, 0);
  }

  lemma AloneFits<S, E, V>(o: Ops<S, E, V>, h: seq<Token<E, V>>, size: nat, computed: nat, scheduled: nat,
                           cells: seq<S>, f: nat)
    requires size > 0 && computed + scheduled <= |h| && LastBlock(computed + scheduled, size) < |cells|
    requires RowReady(Alone(size, computed, scheduled, |cells|), 0, computed, scheduled, f)
    ensures var k := KernelFor(o, h, size, computed, scheduled, |cells|);
            Fits(k, MemFor(h, computed, scheduled, cells), 0, 0) && !Skipped(k.meta, 0)
  {
  }

  lemma AloneReads<S, E, V>(o: Ops<S, E, V>, h: seq<Token<E, V>>, size: nat, computed: nat, scheduled: nat,
                            cells: seq<S>, pos: nat)
    requires size > 0 && computed + scheduled <= |h| && pos < scheduled
    requires var k := KernelFor(o, h, size, computed, scheduled, |cells|);
             Fits(k, MemFor(h, computed, scheduled, cells), 0, 0) && !Skipped(k.meta, 0)
    ensures var k := KernelFor(o, h, size, computed, scheduled, |cells|);
            TokenAt(k, MemFor(h, computed, scheduled, cells), 0, 0, pos) == h[computed + pos]
  {
  }

  lemma NumberedCells<S>(l: Layout, ssm: seq<S>)
    requires l == Layout(1, 1)
    ensures ValidSlots(l, ssm, Numbered(|ssm|), 0) && Cells(l, ssm, Numbered(|ssm|), 0) == ssm
  {
    var slots := Numbered(|ssm|);
    forall i | 0 <= i < |slots| ensures SsmAddr(l, slots[i], 0) == i {
    }
  }

  lemma AloneOwns<S, E, V>(o: Ops<S, E, V>, h: seq<Token<E, V>>, size: nat, computed: nat, scheduled: nat,
                           cells: seq<S>)
    requires size > 0 && computed + scheduled <= |h| && LastBlock(computed + scheduled, size) < |cells|
    requires WellFormed(KernelFor(o, h, size, computed, scheduled, |cells|).meta)
    ensures var k := KernelFor(o, h, size, computed, scheduled, |cells|);
            OwnSlots(k, MemFor(h, computed, scheduled, cells), 0, 0, Numbered(|cells|))
  {
    NumberedCells(Layout(1, 1), cells);
  }

  lemma AloneIsValid<S, E, V>(o: Ops<S, E, V>, h: seq<Token<E, V>>, size: nat, computed: nat, scheduled: nat,
                              cells: seq<S>)
    returns (k: Kernel<S, E, V>, m: Mem<S, E>, f: nat)
    requires size > 0 && scheduled > 0 && computed + scheduled <= |h| && LastBlock(computed + scheduled, size) < |cells|
    ensures k.ssmLayout == Layout(1, 1) && k.deltaLayout == Layout(1, scheduled) && !k.hasZ
    ensures k.meta == Alone(size, computed, scheduled, |cells|) && k.meta.blockSize == size && m.ssm == cells
    ensures ValidCall(o, 0, h, Numbered(|cells|), computed, scheduled, f, k, m, 0)
  {
    k, m := KernelFor(o, h, size, computed, scheduled, |cells|), MemFor(h, computed, scheduled, cells);
    f := AloneIsReady(size, computed, scheduled, |cells|);
    AloneFits(o, h, size, computed, scheduled, cells, f);
    AloneOwns(o, h, size, computed, scheduled, cells);
    forall pos | 0 <= pos < scheduled ensures TokenAt(k, m, 0, 0, pos) == h[computed + pos] {
      AloneReads(o, h, size, computed, scheduled, cells, pos);
    }
  }

  lemma ValidIsCall<S, E, V>(o: Ops<S, E, V>, h: seq<Token<E, V>>, size: nat, computed: nat, call: Call<S, E, V>)
    returns (after: seq<S>)
    requires call.k.ssmLayout == Layout(1, 1) && call.k.meta.blockSize == size
    requires ValidCall(o, 0, h, Numbered(|call.m.ssm|), computed, call.scheduled, call.block, call.k, call.m, call.b)
    ensures |after| == |call.m.ssm|
    ensures CallFrom(o, 0, h, Numbered(|call.m.ssm|), size, computed, call, call.m.ssm, after)
  {
    after := Effect(call.k, call.m, call.b, 0).ssm;
    NumberedCells(call.k.ssmLayout, call.m.ssm);
    NumberedCells(call.k.ssmLayout, after);
  }

  /** A launch for the next `scheduled` tokens that finds `cells` in the request's blocks. */
  lemma CallExists<S, E, V>(o: Ops<S, E, V>, h: seq<Token<E, V>>, size: nat, computed: nat, scheduled: nat,
                            cells: seq<S>)
    returns (call: Call<S, E, V>, after: seq<S>)
    requires size > 0 && scheduled > 0 && computed + scheduled <= |h| && LastBlock(computed + scheduled, size) < |cells|
    ensures call.scheduled == scheduled && |after| == |cells|
    ensures CallFrom(o, 0, h, Numbered(|cells|), size, computed, call, cells, after)
  {
    var k, m, f := AloneIsValid(o, h, size, computed, scheduled, cells);
    call := Call(k, m, 0, scheduled, f);
    after := ValidIsCall(o, h, size, computed, call);
  }

  // ----- runs

  lemma RunSnoc<S, E, V>(o: Ops<S, E, V>, h: seq<Token<E, V>>, slots: seq<int>, size: nat,
                         calls: seq<Call<S, E, V>>, cells: seq<seq<S>>, call: Call<S, E, V>, after: seq<S>)
    requires Run(o, 0, h, slots, size, 0, calls, cells)
    requires CallFrom(o, 0, h, slots, size, Computed(0, calls, |calls|), call, cells[|calls|], after)
    ensures Run(o, 0, h, slots, size, 0, calls + [call], cells + [after])
  {
    var more, cells' := calls + [call], cells + [after];
    forall i | 0 <= i < |more| ensures RunAt(o, 0, h, slots, size, 0, more, cells', i) {
      ComputedPrefix(0, calls, call, i);
      if i < |calls| {
        assert RunAt(o, 0, h, slots, size, 0, calls, cells, i);
      }
    }
  }

  lemma {:induction false} ComputedPrefix<S, E, V>(start: nat, calls: seq<Call<S, E, V>>, call: Call<S, E, V>, i: nat)
    requires i <= |calls|
    ensures Computed(start, calls + [call], i) == Computed(start, calls, i)
    decreases i
  {
    if i > 0 {
      ComputedPrefix(start, calls, call, i - 1);
    }
  }

  /** Call `i` of the run schedules `parts[i]` tokens. */
  ghost predicate Follows<S, E, V>(calls: seq<Call<S, E, V>>, parts: seq<nat>) {
    |calls| == |parts| && forall i :: 0 <= i < |parts| ==> calls[i].scheduled == parts[i]
  }

  lemma {:induction false} ComputedIsSum<S, E, V>(calls: seq<Call<S, E, V>>, parts: seq<nat>, i: nat)
    requires Follows(calls, parts) && i <= |parts|
    ensures Computed(0, calls, i) == Sum(parts[..i])
  {
    if i > 0 {
      ComputedIsSum(calls, parts, i - 1);
      assert parts[..i][..i - 1] == parts[..i - 1];
    }
  }

  /** Every split of every history can be run, from any contents of the request's blocks. */
  lemma {:induction false} RunExists<S, E, V>(o: Ops<S, E, V>, h: seq<Token<E, V>>, size: nat, parts: seq<nat>,
                                              cells0: seq<S>)
    returns (calls: seq<Call<S, E, V>>, cells: seq<seq<S>>)
    requires size > 0 && Positive(parts) && Sum(parts) <= |h| && LastBlock(|h|, size) < |cells0|
    ensures Follows(calls, parts) && Run(o, 0, h, Numbered(|cells0|), size, 0, calls, cells)
    ensures cells[0] == cells0 && |cells[|calls|]| == |cells0|
    decreases |parts|
  {
    if parts == [] {
      calls, cells := [], [cells0];
    } else {
      var n := |parts| - 1;
      var computed := Sum(parts[..n]);
      var calls', cells' := RunExists(o, h, size, parts[..n], cells0);
      ComputedIsSum(calls', parts[..n], n);
      assert parts[..n][..n] == parts[..n];
      LastBlockMonotone(computed + parts[n], |h|, size);
      var call, after := CallExists(o, h, size, computed, parts[n], cells'[n]);
      RunSnoc(o, h, Numbered(|cells0|), size, calls', cells', call, after);
      calls, cells := calls' + [call], cells' + [after];
    }
  }

  ghost predicate LeavesState<S, E, V>(o: Ops<S, E, V>, h: seq<Token<E, V>>, size: nat, cells: seq<S>)
    requires size > 0
  {
    var last := LastBlock(|h|, size);
    last < |cells| && cells[last] == Plain(o, 0, h, |h|)
  }

  /** The chunked, cached, resumed scan is the plain scan: for every step function, history, block
      size and split of the history into calls there is a run, in it every call gives, token for token,
      the outputs of one uninterrupted scan, and it leaves that scan's final state in the last block. */
  lemma EverySplitAgrees<S, E, V>(o: Ops<S, E, V>, h: seq<Token<E, V>>, size: nat, parts: seq<nat>, cells0: seq<S>)
    returns (calls: seq<Call<S, E, V>>, cells: seq<seq<S>>)
    requires size > 0 && Positive(parts) && Sum(parts) == |h| && LastBlock(|h|, size) < |cells0|
    ensures Follows(calls, parts) && Run(o, 0, h, Numbered(|cells0|), size, 0, calls, cells)
    ensures forall i :: 0 <= i < |calls| ==> OutputsAgree(o, 0, h, Sum(parts[..i]), calls[i])
    ensures h != [] ==> LeavesState(o, h, size, cells[|calls|])
  {
    calls, cells := RunExists(o, h, size, parts, cells0);
    FreshRequest(o, 0, h, size, cells0);
    RunHolds(o, 0, h, Numbered(|cells0|), size, 0, calls, cells, |calls|);
    ComputedIsSum(calls, parts, |calls|);
    assert parts[..|parts|] == parts;
    if h != [] {
      LastBlockHolds(|h|, size);
    }
    forall i | 0 <= i < |calls| ensures OutputsAgree(o, 0, h, Sum(parts[..i]), calls[i]) {
      RunAgrees(o, 0, h, Numbered(|cells0|), size, 0, calls, cells, i);
      ComputedIsSum(calls, parts, i);
    }
  }
}
