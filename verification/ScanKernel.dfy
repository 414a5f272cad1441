/** The selective-scan kernel: one program per (batch row, dim), run in place over
    the memory it reads.

    The per-token arithmetic is a parameter of the kernel (`step`, `emit`, `gate`);
    everything about addresses, chunks, slots and stores is spelled out.
  */
module ScanKernel {
  import opened Wrappers

  /** Strides of a tensor in elements; the innermost stride is taken to be 1. */
  datatype Layout = Layout(batch: nat, row: nat)

  /** What one position contributes to a program. */
  datatype Token<E, V> = Token(u: E, delta: E, b: V, c: V)

  /** The launch metadata that is not per token. */
  datatype Batch = Batch(
    varlen: bool, size: nat, dim: nat, ratio: nat,
    starts: seq<nat>, seqlen: nat,
    cacheEnabled: bool, hasCacheIndices: bool,
    table: seq<seq<int>>, nullBlock: int,
    hasInitialState: Option<seq<bool>>,
    blockSize: nat, blockFirst: seq<nat>, blockLast: seq<nat>, initIdx: seq<nat>,
    cu: seq<nat>, lastChunk: seq<nat>)

  datatype Kernel<!S, !E, !V> = Kernel(
    zero: S,
    step: (nat, S, Token<E, V>) -> S,
    emit: (nat, S, Token<E, V>) -> E,
    gate: (E, E) -> E,
    u: seq<E>, bs: seq<V>, cs: seq<V>,
    uLayout: Layout, deltaLayout: Layout, bLayout: Layout, cLayout: Layout,
    zLayout: Layout, ssmLayout: Layout,
    hasZ: bool, meta: Batch)

  /** The three buffers a program writes; `out` is `delta` and `out_z` is `z`. */
  datatype Mem<S, E> = Mem(delta: seq<E>, z: seq<E>, ssm: seq<S>)

  // ----- sequence boundaries and chunks

  /** Every array the kernel indexes by batch row has that row, and the chunks of a
      row are non-empty and cover exactly its tokens. */
  ghost predicate WellFormed(q: Batch)
  {
    && 1 <= q.ratio
    && (q.varlen ==> |q.starts| == q.size + 1
                     && forall i, j :: 0 <= i <= j <= q.size ==> q.starts[i] <= q.starts[j])
    && (q.cacheEnabled || q.hasCacheIndices ==> |q.table| == q.size)
    && (q.hasInitialState.Some? ==> |q.hasInitialState.value| == q.size)
    && (!q.cacheEnabled && q.hasCacheIndices ==> forall b :: 0 <= b < q.size ==> 1 <= |q.table[b]|)
    && (q.cacheEnabled ==> CacheWellFormed(q))
  }

  ghost predicate CacheWellFormed(q: Batch)
    requires q.cacheEnabled ==> |q.table| == q.size
    requires q.varlen ==> |q.starts| == q.size + 1
  {
    && q.cacheEnabled
    && 1 <= q.blockSize
    && |q.blockFirst| == |q.blockLast| == |q.initIdx| == |q.lastChunk| == q.size
    && (forall b :: 0 <= b < q.size ==> q.initIdx[b] < |q.table[b]|)
    && (forall i, j :: 0 <= i < j < |q.cu| ==> q.cu[i] < q.cu[j])
    && (forall b {:trigger FirstChunk(q, b)} :: 0 <= b < q.size ==>
          && FirstChunk(q, b) <= q.lastChunk[b] < |q.cu| - 1
          && q.cu[q.lastChunk[b] + 1] - q.cu[FirstChunk(q, b)] == SeqLen(q, b))
  }

  function SeqStart(q: Batch, b: nat): nat
    requires q.varlen ==> b < |q.starts|
  {
    if q.varlen then q.starts[b] else 0
  }

  function SeqLen(q: Batch, b: nat): int
    requires q.varlen ==> b + 1 < |q.starts|
  {
    if q.varlen then q.starts[b + 1] - q.starts[b] else q.seqlen
  }

  function FirstChunk(q: Batch, b: nat): nat
    requires b < |q.lastChunk|
  {
    if b == 0 then 0 else q.lastChunk[b - 1] + 1
  }

  function NumChunks(q: Batch, b: nat): nat
    requires WellFormed(q) && b < q.size
  {
    if q.cacheEnabled then q.lastChunk[b] - FirstChunk(q, b) + 1 else 1
  }

  /** Tokens of row `b` that precede chunk `c`: the closed form of `tokens_processed`. */
  function TokensBefore(q: Batch, b: nat, c: nat): nat
    requires WellFormed(q) && b < q.size && c <= NumChunks(q, b)
  {
    if q.cacheEnabled then
      assert c > 0 ==> q.cu[FirstChunk(q, b)] < q.cu[FirstChunk(q, b) + c];
      q.cu[FirstChunk(q, b) + c] - q.cu[FirstChunk(q, b)]
    else if c == 0 then 0
    else SeqLen(q, b)
  }

  function ChunkTokens(q: Batch, b: nat, c: nat): nat
    requires WellFormed(q) && b < q.size && c < NumChunks(q, b)
  {
    TokensBefore(q, b, c + 1) - TokensBefore(q, b, c)
  }

  // ----- cache slots

  function LoadSlot(q: Batch, b: nat): int
    requires WellFormed(q) && b < q.size
  {
    if q.cacheEnabled then q.table[b][q.initIdx[b]]
    else if q.hasCacheIndices then q.table[b][0]
    else b
  }

  /** The kernel returns at once for a row whose load slot is the null block. */
  predicate Skipped(q: Batch, b: nat)
    requires WellFormed(q) && b < q.size
  {
    (q.cacheEnabled || q.hasCacheIndices) && LoadSlot(q, b) == q.nullBlock
  }

  predicate HasInit(q: Batch, b: nat)
    requires WellFormed(q) && b < q.size
  {
    q.hasInitialState.Some? && q.hasInitialState.value[b]
  }

  /** The value `current_position` starts from. */
  function StartPosition(q: Batch, b: nat): nat
    requires WellFormed(q) && q.cacheEnabled && b < q.size
  {
    var firstTokens := ChunkTokens(q, b, 0);
    q.blockFirst[b] * q.blockSize
    + if NumChunks(q, b) > 1 && firstTokens < q.blockSize then q.blockSize - firstTokens else 0
  }

  /** The block-table column chunk `c` stores its state through. */
  function StoreColumn(q: Batch, b: nat, c: nat): nat
    requires WellFormed(q) && q.cacheEnabled && b < q.size && c < NumChunks(q, b)
  {
    if c == NumChunks(q, b) - 1 then q.blockLast[b]
    else
      assert TokensBefore(q, b, c + 1) > 0;
      (StartPosition(q, b) + TokensBefore(q, b, c + 1) - 1) / q.blockSize
  }

  function StoreSlot(q: Batch, b: nat, c: nat): int
    requires WellFormed(q) && b < q.size && c < NumChunks(q, b)
    requires q.cacheEnabled ==> StoreColumn(q, b, c) < |q.table[b]|
  {
    if q.cacheEnabled then q.table[b][StoreColumn(q, b, c)] else LoadSlot(q, b)
  }

  // ----- addresses

  function Base(q: Batch, l: Layout, b: nat, row: nat): nat
    requires WellFormed(q) && b < q.size
  {
    if q.varlen then row * l.row + SeqStart(q, b) * l.batch
    else b * l.batch + row * l.row
  }

  function SsmAddr(l: Layout, slot: int, d: nat): int
  {
    slot * l.batch + d * l.row
  }

  /** Rows `b` and dims `d` of the launch grid, with every address they use in bounds. */
  ghost predicate Fits<S, E, V>(k: Kernel<S, E, V>, m: Mem<S, E>, b: nat, d: nat)
  {
    var q := k.meta;
    && WellFormed(q) && b < q.size && d < q.dim
    && (Skipped(q, b) ||
        (&& Base(q, k.uLayout, b, d) + SeqLen(q, b) <= |k.u|
         && Base(q, k.bLayout, b, d / q.ratio) + SeqLen(q, b) <= |k.bs|
         && Base(q, k.cLayout, b, d / q.ratio) + SeqLen(q, b) <= |k.cs|
         && Base(q, k.deltaLayout, b, d) + SeqLen(q, b) <= |m.delta|
         && (k.hasZ ==> Base(q, k.zLayout, b, d) + SeqLen(q, b) <= |m.z|)
         && 0 <= SsmAddr(k.ssmLayout, LoadSlot(q, b), d) < |m.ssm|
         && forall c :: 0 <= c < NumChunks(q, b) ==>
              && (q.cacheEnabled ==> StoreColumn(q, b, c) < |q.table[b]|)
              && 0 <= SsmAddr(k.ssmLayout, StoreSlot(q, b, c), d) < |m.ssm|))
  }

  // ----- the out-of-place meaning of one program

  /** What program (b, d) sees at `pos` in memory `m`. */
  function TokenAt<S, E, V>(k: Kernel<S, E, V>, m: Mem<S, E>, b: nat, d: nat, pos: nat): Token<E, V>
    requires Fits(k, m, b, d) && !Skipped(k.meta, b) && pos < SeqLen(k.meta, b)
  {
    Token(k.u[Base(k.meta, k.uLayout, b, d) + pos],
          m.delta[Base(k.meta, k.deltaLayout, b, d) + pos],
          k.bs[Base(k.meta, k.bLayout, b, d / k.meta.ratio) + pos],
          k.cs[Base(k.meta, k.cLayout, b, d / k.meta.ratio) + pos])
  }

  function InitialState<S, E, V>(k: Kernel<S, E, V>, m: Mem<S, E>, b: nat, d: nat): S
    requires Fits(k, m, b, d) && !Skipped(k.meta, b)
  {
    if HasInit(k.meta, b) then m.ssm[SsmAddr(k.ssmLayout, LoadSlot(k.meta, b), d)] else k.zero
  }

  /** The plain recurrence, with no chunks and no writes. */
  function StateAfter<S, E, V>(k: Kernel<S, E, V>, m: Mem<S, E>, b: nat, d: nat, n: nat): S
    requires Fits(k, m, b, d) && !Skipped(k.meta, b) && n <= SeqLen(k.meta, b)
    decreases n
  {
    if n == 0 then InitialState(k, m, b, d)
    else k.step(d, StateAfter(k, m, b, d, n - 1), TokenAt(k, m, b, d, n - 1))
  }

  function OutAt<S, E, V>(k: Kernel<S, E, V>, m: Mem<S, E>, b: nat, d: nat, pos: nat): E
    requires Fits(k, m, b, d) && !Skipped(k.meta, b) && pos < SeqLen(k.meta, b)
  {
    k.emit(d, StateAfter(k, m, b, d, pos + 1), TokenAt(k, m, b, d, pos))
  }

  /** `delta` once the first `n` outputs have been written over it. */
  ghost function DeltaAfter<S, E, V>(k: Kernel<S, E, V>, m: Mem<S, E>, b: nat, d: nat, n: nat): (r: seq<E>)
    requires Fits(k, m, b, d) && !Skipped(k.meta, b) && n <= SeqLen(k.meta, b)
    ensures |r| == |m.delta|
    decreases n
  {
    if n == 0 then m.delta
    else DeltaAfter(k, m, b, d, n - 1)[Base(k.meta, k.deltaLayout, b, d) + n - 1 := OutAt(k, m, b, d, n - 1)]
  }

  /** `z` once the first `n` gated outputs have been written over it. */
  ghost function ZAfter<S, E, V>(k: Kernel<S, E, V>, m: Mem<S, E>, b: nat, d: nat, n: nat): (r: seq<E>)
    requires Fits(k, m, b, d) && !Skipped(k.meta, b) && n <= SeqLen(k.meta, b)
    ensures |r| == |m.z|
    decreases n
  {
    if n == 0 || !k.hasZ then m.z
    else
      var at := Base(k.meta, k.zLayout, b, d) + n - 1;
      ZAfter(k, m, b, d, n - 1)[at := k.gate(OutAt(k, m, b, d, n - 1), m.z[at])]
  }

  /** The state cache after the first `c` chunks have stored. */
  ghost function Stored<S, E, V>(k: Kernel<S, E, V>, m: Mem<S, E>, b: nat, d: nat, c: nat): (r: seq<S>)
    requires Fits(k, m, b, d) && !Skipped(k.meta, b) && c <= NumChunks(k.meta, b)
    ensures |r| == |m.ssm|
    decreases c
  {
    if c == 0 then m.ssm
    else
      TokensWithin(k.meta, b, c);
      Stored(k, m, b, d, c - 1)[SsmAddr(k.ssmLayout, StoreSlot(k.meta, b, c - 1), d) :=
                                StateAfter(k, m, b, d, TokensBefore(k.meta, b, c))]
  }

  /** Memory after program (b, d), as a function of memory before it. */
  ghost function Effect<S, E, V>(k: Kernel<S, E, V>, m: Mem<S, E>, b: nat, d: nat): (r: Mem<S, E>)
    requires Fits(k, m, b, d)
    ensures |r.delta| == |m.delta| && |r.z| == |m.z| && |r.ssm| == |m.ssm|
  {
    if Skipped(k.meta, b) then m
    else
      var n := SeqLen(k.meta, b);
      Mem(DeltaAfter(k, m, b, d, n), ZAfter(k, m, b, d, n),
          Stored(k, m, b, d, NumChunks(k.meta, b)))
  }

  lemma TokensWithin(q: Batch, b: nat, c: nat)
    requires WellFormed(q) && b < q.size && c <= NumChunks(q, b)
    ensures TokensBefore(q, b, c) <= SeqLen(q, b)
    ensures TokensBefore(q, b, 0) == 0
    ensures TokensBefore(q, b, NumChunks(q, b)) == SeqLen(q, b)
  {
    if q.cacheEnabled && c < NumChunks(q, b) {
      assert q.cu[FirstChunk(q, b) + c] < q.cu[q.lastChunk[b] + 1];
    }
  }

  /** Writing in place never disturbs a position that is still to be read. */
  lemma {:induction false} DeltaAt<S, E, V>(k: Kernel<S, E, V>, m: Mem<S, E>, b: nat, d: nat, n: nat, i: nat)
    requires Fits(k, m, b, d) && !Skipped(k.meta, b) && n <= SeqLen(k.meta, b) && i < |m.delta|
    ensures var base := Base(k.meta, k.deltaLayout, b, d);
            DeltaAfter(k, m, b, d, n)[i] ==
            if base <= i < base + n then OutAt(k, m, b, d, i - base) else m.delta[i]
    decreases n
  {
    if n > 0 {
      DeltaAt(k, m, b, d, n - 1, i);
    }
  }

  lemma {:induction false} ZAt<S, E, V>(k: Kernel<S, E, V>, m: Mem<S, E>, b: nat, d: nat, n: nat, i: nat)
    requires Fits(k, m, b, d) && !Skipped(k.meta, b) && n <= SeqLen(k.meta, b) && i < |m.z|
    ensures var base := Base(k.meta, k.zLayout, b, d);
            ZAfter(k, m, b, d, n)[i] ==
            if k.hasZ && base <= i < base + n then k.gate(OutAt(k, m, b, d, i - base), m.z[i]) else m.z[i]
    decreases n
  {
    if n > 0 && k.hasZ {
      ZAt(k, m, b, d, n - 1, i);
    }
  }

  // ----- the kernel

  /** The inner token loop: reads each position's inputs, then writes its output over `delta`
      and its gated output over `z`. */
  method ScanChunk<S, E, V>(k: Kernel<S, E, V>, b: nat, d: nat, delta: array<E>, z: array<E>,
                            tokensProcessed: nat, chunkTokens: nat, state0: S, ghost m: Mem<S, E>)
    returns (state: S)
    requires Fits(k, m, b, d) && !Skipped(k.meta, b) && delta != z
    requires tokensProcessed + chunkTokens <= SeqLen(k.meta, b)
    requires state0 == StateAfter(k, m, b, d, tokensProcessed)
    requires delta[..] == DeltaAfter(k, m, b, d, tokensProcessed)
    requires z[..] == ZAfter(k, m, b, d, tokensProcessed)
    modifies delta, z
    ensures state == StateAfter(k, m, b, d, tokensProcessed + chunkTokens)
    ensures delta[..] == DeltaAfter(k, m, b, d, tokensProcessed + chunkTokens)
    ensures z[..] == ZAfter(k, m, b, d, tokensProcessed + chunkTokens)
  {
    state := state0;
    for localPos := 0 to chunkTokens
      invariant state == StateAfter(k, m, b, d, tokensProcessed + localPos)
      invariant delta[..] == DeltaAfter(k, m, b, d, tokensProcessed + localPos)
      invariant z[..] == ZAfter(k, m, b, d, tokensProcessed + localPos)
    {
      state := ScanToken(k, b, d, delta, z, tokensProcessed + localPos, state, m);
    }
  }

  /** One step of the recurrence, and of both buffers. */
  lemma TokenNext<S, E, V>(k: Kernel<S, E, V>, m: Mem<S, E>, b: nat, d: nat, pos: nat)
    requires Fits(k, m, b, d) && !Skipped(k.meta, b) && pos < SeqLen(k.meta, b)
    ensures var t := TokenAt(k, m, b, d, pos);
            var state := k.step(d, StateAfter(k, m, b, d, pos), t);
            && StateAfter(k, m, b, d, pos + 1) == state && OutAt(k, m, b, d, pos) == k.emit(d, state, t)
    ensures var at := Base(k.meta, k.deltaLayout, b, d) + pos;
            && DeltaAfter(k, m, b, d, pos)[at] == m.delta[at]
            && DeltaAfter(k, m, b, d, pos + 1) == DeltaAfter(k, m, b, d, pos)[at := OutAt(k, m, b, d, pos)]
  {
    DeltaAt(k, m, b, d, pos, Base(k.meta, k.deltaLayout, b, d) + pos);
  }

  lemma ZNext<S, E, V>(k: Kernel<S, E, V>, m: Mem<S, E>, b: nat, d: nat, pos: nat)
    requires Fits(k, m, b, d) && !Skipped(k.meta, b) && pos < SeqLen(k.meta, b)
    ensures !k.hasZ ==> ZAfter(k, m, b, d, pos + 1) == ZAfter(k, m, b, d, pos)
    ensures k.hasZ ==>
              var at := Base(k.meta, k.zLayout, b, d) + pos;
              && ZAfter(k, m, b, d, pos)[at] == m.z[at]
              && ZAfter(k, m, b, d, pos + 1) ==
                 ZAfter(k, m, b, d, pos)[at := k.gate(OutAt(k, m, b, d, pos), m.z[at])]
  {
    if k.hasZ {
      ZAt(k, m, b, d, pos, Base(k.meta, k.zLayout, b, d) + pos);
    }
  }

  /** One iteration of the token loop. */
  method ScanToken<S, E, V>(k: Kernel<S, E, V>, b: nat, d: nat, delta: array<E>, z: array<E>,
                            pos: nat, state0: S, ghost m: Mem<S, E>)
    returns (state: S)
    requires Fits(k, m, b, d) && !Skipped(k.meta, b) && delta != z
    requires pos < SeqLen(k.meta, b)
    requires state0 == StateAfter(k, m, b, d, pos)
    requires delta[..] == DeltaAfter(k, m, b, d, pos)
    requires z[..] == ZAfter(k, m, b, d, pos)
    modifies delta, z
    ensures state == StateAfter(k, m, b, d, pos + 1)
    ensures delta[..] == DeltaAfter(k, m, b, d, pos + 1)
    ensures z[..] == ZAfter(k, m, b, d, pos + 1)
  {
    TokenNext(k, m, b, d, pos);
    var deltaAt := Base(k.meta, k.deltaLayout, b, d) + pos;
    ghost var delta0 := delta[..];
    var token := LoadToken(k, b, d, delta, pos, m);
    state := k.step(d, state0, token);
    var outVal := k.emit(d, state, token);
    assert |delta0| == |m.delta|;
    delta[deltaAt] := outVal;
    assert delta[..] == delta0[deltaAt := outVal];
    GateToken(k, b, d, z, pos, outVal, m);
  }

  /** The inputs of one token, before anything is written over them. */
  method LoadToken<S, E, V>(k: Kernel<S, E, V>, b: nat, d: nat, delta: array<E>, pos: nat, ghost m: Mem<S, E>)
    returns (token: Token<E, V>)
    requires Fits(k, m, b, d) && !Skipped(k.meta, b) && pos < SeqLen(k.meta, b)
    requires delta[..] == DeltaAfter(k, m, b, d, pos)
    ensures token == TokenAt(k, m, b, d, pos)
  {
    var deltaAt := Base(k.meta, k.deltaLayout, b, d) + pos;
    DeltaAt(k, m, b, d, pos, deltaAt);
    assert |delta[..]| == |m.delta|;
    assert delta[deltaAt] == delta[..][deltaAt];
    token := Token(k.u[Base(k.meta, k.uLayout, b, d) + pos], delta[deltaAt],
                   k.bs[Base(k.meta, k.bLayout, b, d / k.meta.ratio) + pos],
                   k.cs[Base(k.meta, k.cLayout, b, d / k.meta.ratio) + pos]);
  }

  /** The gated output of one token, written over `z`. */
  method GateToken<S, E, V>(k: Kernel<S, E, V>, b: nat, d: nat, z: array<E>, pos: nat, outVal: E, ghost m: Mem<S, E>)
    requires Fits(k, m, b, d) && !Skipped(k.meta, b) && pos < SeqLen(k.meta, b)
    requires z[..] == ZAfter(k, m, b, d, pos) && outVal == OutAt(k, m, b, d, pos)
    modifies z
    ensures z[..] == ZAfter(k, m, b, d, pos + 1)
  {
    ZNext(k, m, b, d, pos);
    if k.hasZ {
      var zAt := Base(k.meta, k.zLayout, b, d) + pos;
      ghost var z0 := z[..];
      assert |z0| == |m.z| && z[zAt] == z0[zAt];
      var gated := k.gate(outVal, z[zAt]);
      z[zAt] := gated;
      assert z[..] == z0[zAt := gated];
    }
  }

  /** One program of the grid. */
  method RunProgram<S, E, V>(k: Kernel<S, E, V>, b: nat, d: nat,
                             delta: array<E>, z: array<E>, ssm: array<S>)
    requires Fits(k, Mem(delta[..], z[..], ssm[..]), b, d)
    requires delta != z && ssm as object != delta && ssm as object != z
    modifies delta, z, ssm
    ensures Mem(delta[..], z[..], ssm[..]) == Effect(k, old(Mem(delta[..], z[..], ssm[..])), b, d)
  {
    var q := k.meta;
    var loadSlot := LoadSlot(q, b);
    if (q.cacheEnabled || q.hasCacheIndices) && loadSlot == q.nullBlock {
      return;
    }
    ghost var m := Mem(delta[..], z[..], ssm[..]);
    var state := k.zero;
    if HasInit(q, b) {
      state := ssm[SsmAddr(k.ssmLayout, loadSlot, d)];
    }
    if q.cacheEnabled {
      RunCached(k, b, d, delta, z, ssm, state, m);
    } else {
      TokensWithin(q, b, 1);
      state := ScanChunk(k, b, d, delta, z, 0, SeqLen(q, b), state, m);
      ssm[SsmAddr(k.ssmLayout, loadSlot, d)] := state;
      assert Stored(k, m, b, d, 0) == m.ssm;
    }
  }

  /** The chunk loop: scan a chunk, store the running state through the block table. */
  method RunCached<S, E, V>(k: Kernel<S, E, V>, b: nat, d: nat,
                            delta: array<E>, z: array<E>, ssm: array<S>, state0: S, ghost m: Mem<S, E>)
    requires Fits(k, m, b, d) && !Skipped(k.meta, b) && k.meta.cacheEnabled
    requires m == Mem(delta[..], z[..], ssm[..]) && state0 == InitialState(k, m, b, d)
    requires delta != z && ssm as object != delta && ssm as object != z
    modifies delta, z, ssm
    ensures Mem(delta[..], z[..], ssm[..]) == Effect(k, m, b, d)
  {
    var q := k.meta;
    var firstChunk := FirstChunk(q, b);
    var nChunks := q.lastChunk[b] - firstChunk + 1;
    var firstTokens := q.cu[firstChunk + 1] - q.cu[firstChunk];
    var offset := if nChunks > 1 && firstTokens < q.blockSize then q.blockSize - firstTokens else 0;
    var currentPosition := q.blockFirst[b] * q.blockSize + offset;
    var state := state0;
    for chunk := 0 to nChunks
      invariant currentPosition == StartPosition(q, b) + TokensBefore(q, b, chunk)
      invariant ChunksDone(k, m, b, d, chunk, state, delta[..], z[..], ssm[..])
    {
      state := RunChunk(k, b, d, delta, z, ssm, chunk, currentPosition, state, m);
      currentPosition := currentPosition + (q.cu[firstChunk + chunk + 1] - q.cu[firstChunk + chunk]);
    }
    TokensWithin(q, b, nChunks);
  }

  /** What the chunk loop maintains after `c` chunks. */
  ghost predicate ChunksDone<S, E, V>(k: Kernel<S, E, V>, m: Mem<S, E>, b: nat, d: nat, c: nat,
                                      state: S, delta: seq<E>, z: seq<E>, ssm: seq<S>)
    requires Fits(k, m, b, d) && !Skipped(k.meta, b) && c <= NumChunks(k.meta, b)
  {
    TokensDone(k, m, b, d, c, state, delta, z) && ssm == Stored(k, m, b, d, c)
  }

  /** The tokens of the first `c` chunks have been scanned. */
  ghost predicate TokensDone<S, E, V>(k: Kernel<S, E, V>, m: Mem<S, E>, b: nat, d: nat, c: nat,
                                      state: S, delta: seq<E>, z: seq<E>)
    requires Fits(k, m, b, d) && !Skipped(k.meta, b) && c <= NumChunks(k.meta, b)
  {
    TokensWithin(k.meta, b, c);
    var n := TokensBefore(k.meta, b, c);
    && state == StateAfter(k, m, b, d, n)
    && delta == DeltaAfter(k, m, b, d, n)
    && z == ZAfter(k, m, b, d, n)
  }

  /** The kernel's arithmetic gives the column the chunk stores through. */
  lemma ColumnIs(q: Batch, b: nat, chunk: nat, currentPosition: nat, chunkTokens: int)
    requires WellFormed(q) && q.cacheEnabled && b < q.size && chunk < NumChunks(q, b)
    requires currentPosition == StartPosition(q, b) + TokensBefore(q, b, chunk)
    requires chunkTokens == q.cu[FirstChunk(q, b) + chunk + 1] - q.cu[FirstChunk(q, b) + chunk]
    ensures currentPosition + chunkTokens >= 1
    ensures StoreColumn(q, b, chunk) ==
            if chunk == NumChunks(q, b) - 1 then q.blockLast[b] else (currentPosition + chunkTokens - 1) / q.blockSize
  {
    assert q.cu[FirstChunk(q, b) + chunk] < q.cu[FirstChunk(q, b) + chunk + 1];
    assert TokensBefore(q, b, chunk + 1) == TokensBefore(q, b, chunk) + chunkTokens;
  }

  /** The column the chunk stores through. */
  method ColumnOf(q: Batch, b: nat, chunk: nat, currentPosition: nat, chunkTokens: int) returns (column: nat)
    requires WellFormed(q) && q.cacheEnabled && b < q.size && chunk < NumChunks(q, b)
    requires currentPosition == StartPosition(q, b) + TokensBefore(q, b, chunk)
    requires chunkTokens == q.cu[FirstChunk(q, b) + chunk + 1] - q.cu[FirstChunk(q, b) + chunk]
    ensures column == StoreColumn(q, b, chunk)
  {
    ColumnIs(q, b, chunk, currentPosition, chunkTokens);
    if chunk == q.lastChunk[b] - FirstChunk(q, b) {
      column := q.blockLast[b];
    } else {
      column := (currentPosition + chunkTokens - 1) / q.blockSize;
    }
  }

  lemma StoredNext<S, E, V>(k: Kernel<S, E, V>, m: Mem<S, E>, b: nat, d: nat, c: nat)
    requires Fits(k, m, b, d) && !Skipped(k.meta, b) && k.meta.cacheEnabled && c < NumChunks(k.meta, b)
    ensures StoreColumn(k.meta, b, c) < |k.meta.table[b]| && TokensBefore(k.meta, b, c + 1) <= SeqLen(k.meta, b)
    ensures var at := SsmAddr(k.ssmLayout, k.meta.table[b][StoreColumn(k.meta, b, c)], d);
            && 0 <= at < |m.ssm|
            && Stored(k, m, b, d, c + 1) ==
               Stored(k, m, b, d, c)[at := StateAfter(k, m, b, d, TokensBefore(k.meta, b, c + 1))]
  {
    TokensWithin(k.meta, b, c + 1);
  }

  /** One iteration of the chunk loop. */
  method RunChunk<S, E, V>(k: Kernel<S, E, V>, b: nat, d: nat, delta: array<E>, z: array<E>, ssm: array<S>,
                           chunk: nat, currentPosition: nat, state0: S, ghost m: Mem<S, E>)
    returns (state: S)
    requires Fits(k, m, b, d) && !Skipped(k.meta, b) && k.meta.cacheEnabled
    requires delta != z && ssm as object != delta && ssm as object != z
    requires chunk < NumChunks(k.meta, b)
    requires currentPosition == StartPosition(k.meta, b) + TokensBefore(k.meta, b, chunk)
    requires ChunksDone(k, m, b, d, chunk, state0, delta[..], z[..], ssm[..])
    modifies delta, z, ssm
    ensures ChunksDone(k, m, b, d, chunk + 1, state, delta[..], z[..], ssm[..])
  {
    var q := k.meta;
    var first := FirstChunk(q, b);
    var chunkTokens := q.cu[first + chunk + 1] - q.cu[first + chunk];
    state := ScanTokens(k, b, d, delta, z, chunk, state0, m);
    var column := ColumnOf(q, b, chunk, currentPosition, chunkTokens);
    StoredNext(k, m, b, d, chunk);
    StoreState(k, m, b, d, chunk, column, state, ssm);
  }

  /** The tokens of one chunk. */
  method ScanTokens<S, E, V>(k: Kernel<S, E, V>, b: nat, d: nat, delta: array<E>, z: array<E>, chunk: nat, state0: S,
                             ghost m: Mem<S, E>)
    returns (state: S)
    requires Fits(k, m, b, d) && !Skipped(k.meta, b) && k.meta.cacheEnabled && delta != z
    requires chunk < NumChunks(k.meta, b)
    requires TokensDone(k, m, b, d, chunk, state0, delta[..], z[..])
    modifies delta, z
    ensures TokensDone(k, m, b, d, chunk + 1, state, delta[..], z[..])
  {
    var q := k.meta;
    var first := FirstChunk(q, b);
    TokensWithin(q, b, chunk);
    TokensWithin(q, b, chunk + 1);
    var chunkTokens := q.cu[first + chunk + 1] - q.cu[first + chunk];
    state := ScanChunk(k, b, d, delta, z, q.cu[first + chunk] - q.cu[first], chunkTokens, state0, m);
  }

  /** The store at the end of a chunk. */
  method StoreState<S, E, V>(k: Kernel<S, E, V>, ghost m: Mem<S, E>, b: nat, d: nat, ghost chunk: nat, column: nat,
                             state: S, ssm: array<S>)
    requires Fits(k, m, b, d) && !Skipped(k.meta, b) && k.meta.cacheEnabled && chunk < NumChunks(k.meta, b)
    requires column == StoreColumn(k.meta, b, chunk) < |k.meta.table[b]|
    requires TokensBefore(k.meta, b, chunk + 1) <= SeqLen(k.meta, b)
    requires state == StateAfter(k, m, b, d, TokensBefore(k.meta, b, chunk + 1)) && ssm[..] == Stored(k, m, b, d, chunk)
    modifies ssm
    ensures ssm[..] == Stored(k, m, b, d, chunk + 1)
  {
    StoredNext(k, m, b, d, chunk);
    ghost var before := ssm[..];
    assert |before| == |m.ssm|;
    ssm[SsmAddr(k.ssmLayout, k.meta.table[b][column], d)] := state;
    assert ssm[..] == before[SsmAddr(k.ssmLayout, k.meta.table[b][column], d) := state];
  }
}
