/** How an allocation is rounded and cut into chunks, in 64-bit arithmetic. */
module Chunking {
  import opened Sums

  const WORD := 0x1_0000_0000_0000_0000
  const MEGABYTE := 0x10_0000
  const DEFAULT_CHUNK := 256 * MEGABYTE

  /** What `VLLM_ROCM_SLEEP_MEM_CHUNK_SIZE` holds: nothing, text that does not parse, or a number. */
  datatype Setting = Unset | Unparsable | Megabytes(value: nat)

  function BaseChunk(s: Setting): (r: nat)
    requires s.Megabytes? ==> s.value < WORD
    ensures 0 < r < WORD && r % MEGABYTE == 0
  {
    match s
    case Unset => DEFAULT_CHUNK
    case Unparsable => DEFAULT_CHUNK
    case Megabytes(v) =>
      if v == 0 || v > (WORD - 1) / MEGABYTE then DEFAULT_CHUNK else v * MEGABYTE
  }

  /** A number of megabytes is taken as it is, as long as it is not 0 and its bytes can be counted in 64 bits; any
      other setting gives 256 megabytes. */
  lemma BaseChunkIs(s: Setting)
    requires s.Megabytes? ==> s.value < WORD
    ensures s.Megabytes? && s.value > 0 && s.value * 1048576 < WORD ==> BaseChunk(s) == s.value * 1048576
    ensures !(s.Megabytes? && s.value > 0 && s.value * 1048576 < WORD) ==> BaseChunk(s) == 268435456
  {
  }

  /** ((n + g - 1) / g) * g on 64-bit unsigned numbers. */
  function AlignUp(n: nat, g: nat): nat
    requires 0 < g
  {
    RoundDown((n + g - 1) % WORD, g);
    (n + g - 1) % WORD / g * g
  }

  function NumChunks(aligned: nat, chunk: nat): nat
    requires 0 < chunk
  {
    (aligned + chunk - 1) % WORD / chunk
  }

  function ChunkSize(aligned: nat, chunk: nat, i: nat): nat {
    var start := i * chunk;
    if aligned <= start then 0 else if aligned - start < chunk then aligned - start else chunk
  }

  /** The first `n` chunk sizes. */
  function Chunks(aligned: nat, chunk: nat, n: nat): (r: seq<nat>)
    ensures |r| == n
  {
    if n == 0 then [] else Chunks(aligned, chunk, n - 1) + [ChunkSize(aligned, chunk, n - 1)]
  }

  // ----- rounding

  lemma RoundDown(x: nat, g: nat)
    requires 0 < g
    ensures 0 <= x / g * g <= x < x / g * g + g && (x / g * g) % g == 0
  {
    var q := x / g;
    assert x == q * g + x % g;
    assert q * g >= 0;
    DivUnique(q * g, g, q, 0);
  }

  /** Rounding up is right exactly when the sum it starts from does not wrap. */
  lemma AlignUpExact(n: nat, g: nat)
    requires 0 < n < WORD && 0 < g < WORD
    ensures AlignUp(n, g) % g == 0
    ensures n <= AlignUp(n, g) <==> n + g - 1 < WORD
    ensures n + g - 1 < WORD ==> AlignUp(n, g) < n + g
  {
    var x := n + g - 1;
    RoundDown(x % WORD, g);
    if x < WORD {
      assert x % WORD == x;
    } else {
      assert x % WORD == x - WORD;
    }
  }

  /** The overflow guard on the configured size does not cover the rounding that follows: the
      largest size it lets through rounds to 0 when the granularity is 2 MB. */
  lemma GuardDoesNotCoverRounding()
    ensures BaseChunk(Megabytes(0xFFF_FFFF_FFFF)) == 0xFFF_FFFF_FFFF * MEGABYTE
    ensures AlignUp(BaseChunk(Megabytes(0xFFF_FFFF_FFFF)), 2 * MEGABYTE) == 0
  {
    var n := BaseChunk(Megabytes(0xFFF_FFFF_FFFF));
    assert n + 2 * MEGABYTE - 1 == WORD + (MEGABYTE - 1);
    assert (n + 2 * MEGABYTE - 1) % WORD == MEGABYTE - 1;
  }

  // ----- tiling

  /** `sizes` are positive multiples of `g`, none above `chunk`, that sum to `aligned`, and chunk
      `i` starts where the first `i` chunks end. */
  ghost predicate Tiles(sizes: seq<nat>, aligned: nat, chunk: nat, g: nat)
    requires 0 < g
  {
    && Positive(sizes) && Sum(sizes) == aligned
    && (forall i :: 0 <= i < |sizes| ==> sizes[i] % g == 0 && sizes[i] <= chunk)
    && (forall i :: 0 <= i < |sizes| ==> Sum(sizes[..i]) == i * chunk)
  }

  lemma MultipleOf(a: nat, b: nat, g: nat)
    requires 0 < g && a % g == 0 && b % g == 0 && b <= a
    ensures (a - b) % g == 0
  {
    var p, q := a / g, b / g;
    assert a == p * g && b == q * g;
    assert a - b == (p - q) * g;
    if p < q {
      Multiples(p, q, g);
      assert false;
    }
    DivUnique(a - b, g, p - q, 0);
  }

  lemma TimesMultiple(i: nat, chunk: nat, g: nat)
    requires 0 < g && chunk % g == 0
    ensures (i * chunk) % g == 0
  {
    assert chunk == chunk / g * g;
    assert i * chunk == i * (chunk / g) * g;
    DivUnique(i * chunk, g, i * (chunk / g), 0);
  }

  /** Chunk `i` is a positive multiple of the granularity, no longer than a chunk, and starts at its place. */
  ghost predicate ChunkAt(s: seq<nat>, i: nat, chunk: nat, g: nat)
    requires i < |s| && 0 < g
  {
    s[i] >= 1 && s[i] % g == 0 && s[i] <= chunk && Sum(s[..i]) == i * chunk
  }

  lemma ChunkAtPrefix(s: seq<nat>, size: nat, i: nat, chunk: nat, g: nat)
    requires i < |s| && 0 < g && ChunkAt(s, i, chunk, g)
    ensures ChunkAt(s + [size], i, chunk, g)
  {
    assert (s + [size])[..i] == s[..i];
  }

  lemma NextChunk(aligned: nat, chunk: nat, g: nat, i: nat)
    requires 0 < g && 0 < chunk && chunk % g == 0 && aligned % g == 0 && i * chunk < aligned
    ensures 1 <= ChunkSize(aligned, chunk, i) <= chunk && ChunkSize(aligned, chunk, i) % g == 0
    ensures i * chunk + ChunkSize(aligned, chunk, i) ==
            if i * chunk + chunk < aligned then i * chunk + chunk else aligned
  {
    TimesMultiple(i, chunk, g);
    MultipleOf(aligned, i * chunk, g);
  }

  lemma {:induction false} ChunksGrow(aligned: nat, chunk: nat, g: nat, n: nat)
    requires 0 < g && 0 < chunk && chunk % g == 0 && 0 < aligned && aligned % g == 0
    requires n > 0 ==> (n - 1) * chunk < aligned
    ensures var s := Chunks(aligned, chunk, n);
            && Sum(s) == (if n * chunk < aligned then n * chunk else aligned)
            && (forall i :: 0 <= i < n ==> ChunkAt(s, i, chunk, g))
  {
    if n > 0 {
      Starts(n, chunk);
      ChunksGrow(aligned, chunk, g, n - 1);
      NextChunk(aligned, chunk, g, n - 1);
      OneMoreChunk(Chunks(aligned, chunk, n - 1), ChunkSize(aligned, chunk, n - 1), chunk, g, (n - 1) * chunk);
    }
  }

  /** Where neighbouring chunks start. */
  lemma Starts(n: nat, chunk: nat)
    requires n > 0
    ensures n * chunk == (n - 1) * chunk + chunk && (n > 1 ==> (n - 1) * chunk == (n - 2) * chunk + chunk)
  {
  }

  lemma OneMoreChunk(before: seq<nat>, size: nat, chunk: nat, g: nat, start: nat)
    requires 0 < g && forall i :: 0 <= i < |before| ==> ChunkAt(before, i, chunk, g)
    requires 1 <= size <= chunk && size % g == 0 && start == |before| * chunk == Sum(before)
    ensures Sum(before + [size]) == start + size
    ensures forall i :: 0 <= i < |before| + 1 ==> ChunkAt(before + [size], i, chunk, g)
  {
    assert (before + [size])[..|before|] == before;
    forall i | 0 <= i < |before| + 1 ensures ChunkAt(before + [size], i, chunk, g) {
      if i < |before| {
        ChunkAtPrefix(before, size, i, chunk, g);
      }
    }
  }

  /** The chunks tile the rounded allocation. */
  lemma ChunksTile(aligned: nat, chunk: nat, g: nat)
    requires 0 < g && 0 < chunk && chunk % g == 0 && 0 < aligned && aligned % g == 0
    requires aligned + chunk - 1 < WORD
    ensures NumChunks(aligned, chunk) > 0
    ensures Tiles(Chunks(aligned, chunk, NumChunks(aligned, chunk)), aligned, chunk, g)
  {
    var n := NumChunks(aligned, chunk);
    RoundDown(aligned + chunk - 1, chunk);
    assert n * chunk == (n - 1) * chunk + chunk;
    ChunksGrow(aligned, chunk, g, n);
    var s := Chunks(aligned, chunk, n);
    forall i | 0 <= i < n ensures s[i] >= 1 && s[i] % g == 0 && s[i] <= chunk && Sum(s[..i]) == i * chunk {
      assert ChunkAt(s, i, chunk, g);
    }
  }

  /** The loop that fills `chunk_sizes`. */
  method ChunkSizes(aligned: nat, chunk: nat) returns (sizes: seq<nat>)
    requires 0 < chunk
    ensures sizes == Chunks(aligned, chunk, NumChunks(aligned, chunk))
  {
    sizes := [];
    for i := 0 to NumChunks(aligned, chunk)
      invariant sizes == Chunks(aligned, chunk, i)
    {
      sizes := sizes + [ChunkSize(aligned, chunk, i)];
    }
  }

  /** No rounding sum of an allocation wraps. */
  predicate NoWrap(size: nat, g: nat, setting: Setting) {
    && 0 < size && 0 < g < WORD && (setting.Megabytes? ==> setting.value < WORD)
    && size + g - 1 < WORD && BaseChunk(setting) + g - 1 < WORD
    && AlignUp(size, g) + AlignUp(BaseChunk(setting), g) - 1 < WORD
  }

  /** The chunk sizes of an allocation of `size` bytes. */
  function Plan(size: nat, g: nat, setting: Setting): seq<nat>
    requires NoWrap(size, g, setting)
  {
    AlignUpExact(BaseChunk(setting), g);
    var aligned, chunk := AlignUp(size, g), AlignUp(BaseChunk(setting), g);
    Chunks(aligned, chunk, NumChunks(aligned, chunk))
  }

  lemma PlanTiles(size: nat, g: nat, setting: Setting)
    requires NoWrap(size, g, setting)
    ensures size <= AlignUp(size, g) < size + g && AlignUp(size, g) % g == 0
    ensures |Plan(size, g, setting)| > 0
    ensures Tiles(Plan(size, g, setting), AlignUp(size, g), AlignUp(BaseChunk(setting), g), g)
  {
    AlignUpExact(size, g);
    AlignUpExact(BaseChunk(setting), g);
    ChunksTile(AlignUp(size, g), AlignUp(BaseChunk(setting), g), g);
  }

  /** With 64-bit wrap-around, the chunks tile the rounded allocation exactly when the sum behind their
      number does not wrap. */
  lemma TilesIff(aligned: nat, chunk: nat, g: nat)
    requires 0 < g && 0 < chunk < WORD && chunk % g == 0 && 0 < aligned < WORD && aligned % g == 0
    ensures Tiles(Chunks(aligned, chunk, NumChunks(aligned, chunk)), aligned, chunk, g) <==> aligned + chunk - 1 < WORD
  {
    if aligned + chunk - 1 < WORD {
      ChunksTile(aligned, chunk, g);
    } else {
      TooFewChunks(aligned, chunk, g);
    }
  }

  lemma TooFewChunks(aligned: nat, chunk: nat, g: nat)
    requires 0 < g && 0 < chunk < WORD && chunk % g == 0 && 0 < aligned < WORD && aligned % g == 0
    requires aligned + chunk - 1 >= WORD
    ensures Sum(Chunks(aligned, chunk, NumChunks(aligned, chunk))) < aligned
  {
    var x, n := aligned + chunk - 1 - WORD, NumChunks(aligned, chunk);
    assert (aligned + chunk - 1) % WORD == x;
    RoundDown(x, chunk);
    assert n > 0 ==> (n - 1) * chunk < n * chunk;
    ChunksGrow(aligned, chunk, g, n);
  }

  /** A rounding that wraps gives 0. */
  lemma WrappedIsZero(n: nat, g: nat)
    requires 0 < n < WORD && 0 < g < WORD && n + g - 1 >= WORD
    ensures AlignUp(n, g) == 0
  {
    assert (n + g - 1) % WORD == n + g - 1 - WORD;
    DivUnique(n + g - 1 - WORD, g, 0, n + g - 1 - WORD);
  }

  /** The code's plan, wherever its sums wrap: it gives a chunk size to divide by, covers the request and
      tiles the rounded size exactly when none of its three sums wraps. */
  lemma PlanTilesIff(size: nat, g: nat, setting: Setting)
    requires 0 < size < WORD && 0 < g < WORD && (setting.Megabytes? ==> setting.value < WORD)
    ensures var aligned, chunk := AlignUp(size, g), AlignUp(BaseChunk(setting), g);
            NoWrap(size, g, setting) <==>
            chunk > 0 && size <= aligned && Tiles(Chunks(aligned, chunk, NumChunks(aligned, chunk)), aligned, chunk, g)
  {
    var aligned, chunk := AlignUp(size, g), AlignUp(BaseChunk(setting), g);
    AlignUpExact(size, g);
    AlignUpExact(BaseChunk(setting), g);
    if BaseChunk(setting) + g - 1 >= WORD {
      WrappedIsZero(BaseChunk(setting), g);
    } else if size + g - 1 < WORD {
      RoundedFits(size, g);
      RoundedFits(BaseChunk(setting), g);
      TilesIff(aligned, chunk, g);
    }
  }

  lemma RoundedFits(n: nat, g: nat)
    requires 0 < n && 0 < g && n + g - 1 < WORD
    ensures AlignUp(n, g) < WORD
  {
    RoundDown(n + g - 1, g);
  }
}
