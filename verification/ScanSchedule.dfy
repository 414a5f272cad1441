/** How scheduled tokens are cut into chunks so that chunks end at block boundaries. */
module ScanSchedule {
  import opened Sums

  function Min(a: nat, b: nat): nat {
    if a < b then a else b
  }

  /** Ceiling division. */
  function Cdiv(a: nat, b: nat): nat
    requires b > 0
  {
    (a + b - 1) / b
  }

  function FullChunks(n: nat, size: nat): seq<nat>
    requires size > 0
  {
    if n == 0 then [] else [Min(size, n)] + FullChunks(n - Min(size, n), size)
  }

  /** The chunk lengths of one request whose last block already holds `used` tokens: finish that
      block, then whole blocks. */
  function RowFrom(used: nat, scheduled: nat, size: nat): seq<nat>
    requires used < size
  {
    if used == 0 then FullChunks(scheduled, size)
    else
      var head := Min(size - used, scheduled);
      [head] + FullChunks(scheduled - head, size)
  }

  function ChunkLens(computed: nat, scheduled: nat, size: nat): seq<nat>
    requires size > 0
  {
    RowFrom(computed % size, scheduled, size)
  }

  // ----- arithmetic

  lemma CdivBound(a: nat, b: nat)
    requires b > 0
    ensures a <= Cdiv(a, b) * b < a + b
    ensures a % b != 0 ==> Cdiv(a, b) == a / b + 1
    ensures a % b == 0 ==> Cdiv(a, b) == a / b
  {
    var q, r := a / b, a % b;
    assert a == q * b + r;
    if r == 0 {
      DivUnique(a + b - 1, b, q, b - 1);
    } else {
      assert a + b - 1 == (q + 1) * b + (r - 1);
      DivUnique(a + b - 1, b, q + 1, r - 1);
    }
  }

  lemma {:induction false} FullChunksShape(n: nat, size: nat)
    requires size > 0
    ensures Sum(FullChunks(n, size)) == n
    ensures Positive(FullChunks(n, size))
    ensures forall c :: 0 <= c < |FullChunks(n, size)| ==> FullChunks(n, size)[c] <= size
    ensures forall c :: 0 <= c < |FullChunks(n, size)| - 1 ==> FullChunks(n, size)[c] == size
    ensures n > 0 ==> |FullChunks(n, size)| > 0
    decreases n
  {
    if n > 0 {
      var m := Min(size, n);
      FullChunksShape(n - m, size);
      SumAppend([m], FullChunks(n - m, size));
      assert Sum([m]) == m by { assert [m][..0] == []; }
    }
  }

  /** The promise of the chunking: chunks cover the new tokens, none is empty or longer than a
      block, and every chunk but the last ends exactly at a block boundary. */
  ghost predicate RowShape(s: seq<nat>, used: nat, scheduled: nat, size: nat) {
    && size > 0 && |s| > 0 && Sum(s) == scheduled && Positive(s)
    && (forall c :: 0 <= c < |s| ==> s[c] <= size)
    && (forall c :: 0 < c < |s| - 1 ==> s[c] == size)
    && used + s[0] <= size
    && (|s| > 1 ==> used + s[0] == size)
  }

  lemma RowFromShape(used: nat, scheduled: nat, size: nat)
    requires used < size && scheduled > 0
    ensures RowShape(RowFrom(used, scheduled, size), used, scheduled, size)
  {
    if used == 0 {
      FullChunksShape(scheduled, size);
    } else {
      var head := Min(size - used, scheduled);
      var rest := FullChunks(scheduled - head, size);
      FullChunksShape(scheduled - head, size);
      SumAppend([head], rest);
      assert [head][..0] == [];
      assert |rest| > 0 ==> Sum(rest) >= rest[|rest| - 1] >= 1;
    }
  }

  /** What the builder computes as the length of a first, partial chunk. */
  lemma HeadBound(computed: nat, size: nat)
    requires size > 0 && computed % size != 0
    ensures Cdiv(computed, size) * size - computed == size - computed % size
  {
    CdivBound(computed, size);
    assert (computed / size + 1) * size == computed / size * size + size;
  }

  /** The tokens of the first `n` blocks. */
  function Blocks(n: nat, size: nat): nat {
    if n == 0 then 0 else Blocks(n - 1, size) + size
  }

  lemma {:induction false} BlocksAre(n: nat, size: nat)
    ensures Blocks(n, size) == n * size
  {
    if n > 0 {
      BlocksAre(n - 1, size);
      assert n * size == (n - 1) * size + size;
    }
  }

  lemma {:induction false} BlocksApart(i: nat, j: nat, size: nat)
    requires i < j
    ensures Blocks(i, size) + size <= Blocks(j, size)
    decreases j
  {
    if i < j - 1 {
      BlocksApart(i, j - 1, size);
    }
  }

  /** Token number `n`, counted from 1, lies in block `col`. */
  predicate InBlock(col: nat, n: nat, size: nat) {
    Blocks(col, size) < n <= Blocks(col + 1, size)
  }

  /** Every chunk but the last of a request with Blocks(f) + used tokens ends where a block ends:
      first block `f`, then the next ones. */
  lemma {:induction false} PrefixBoundary(s: seq<nat>, f: nat, used: nat, scheduled: nat, size: nat, c: nat)
    requires RowShape(s, used, scheduled, size) && c < |s| - 1
    ensures Blocks(f, size) + used + Sum(s[..c + 1]) == Blocks(f + c + 1, size)
  {
    SumSnoc(s, c);
    if c == 0 {
      assert s[..0] == [];
    } else {
      PrefixBoundary(s, f, used, scheduled, size, c - 1);
    }
  }

  /** The last chunk ends inside the block that follows the completed ones. */
  lemma LastBoundary(s: seq<nat>, f: nat, used: nat, scheduled: nat, size: nat)
    requires RowShape(s, used, scheduled, size)
    ensures InBlock(f + |s| - 1, Blocks(f, size) + used + scheduled, size)
  {
    var n := |s|;
    SumSnoc(s, n - 1);
    assert s[..n] == s;
    if n > 1 {
      PrefixBoundary(s, f, used, scheduled, size, n - 2);
    } else {
      assert s[..0] == [];
    }
  }

  // ----- the metadata builder

  ghost predicate Requests(computed: seq<nat>, starts: seq<nat>) {
    |starts| == |computed| + 1 && forall i, j :: 0 <= i <= j < |starts| ==> starts[i] <= starts[j]
  }

  function NewTokens(computed: seq<nat>, starts: seq<nat>, r: nat): nat
    requires Requests(computed, starts) && r < |computed|
  {
    starts[r + 1] - starts[r]
  }

  /** The chunk lengths of every request. */
  ghost function Rows(size: nat, computed: seq<nat>, starts: seq<nat>): (rows: seq<seq<nat>>)
    requires size > 0 && Requests(computed, starts)
    ensures |rows| == |computed|
    ensures forall r :: 0 <= r < |rows| ==> rows[r] == ChunkLens(computed[r], NewTokens(computed, starts, r), size)
  {
    seq(|computed|, r requires 0 <= r < |computed| => ChunkLens(computed[r], NewTokens(computed, starts, r), size))
  }

  /** The first `r` rows, one after another. */
  ghost function Flat(rows: seq<seq<nat>>, r: nat): seq<nat>
    requires r <= |rows|
  {
    if r == 0 then [] else Flat(rows, r - 1) + rows[r - 1]
  }

  /** `cu[i]` is the number of tokens in the chunks before chunk `i`. */
  ghost predicate Offsets(cu: seq<nat>, lens: seq<nat>) {
    |cu| <= |lens| + 1 && forall i :: 0 <= i < |cu| ==> cu[i] == Sum(lens[..i])
  }

  lemma OffsetsSnoc(cu: seq<nat>, lens: seq<nat>, len: nat)
    requires Offsets(cu, lens) && |cu| == |lens|
    ensures Offsets(cu + [Sum(lens)], lens + [len])
    ensures Sum(lens + [len]) == Sum(lens) + len
  {
    var t := lens + [len];
    assert t[..|lens|] == lens;
    forall i | 0 <= i < |cu| ensures lens[..i] == t[..i] {
    }
  }

  /** The two-part loop of the builder for one request. */
  method ChunkRequest(size: nat, numComputed: nat, newTokens: nat, cu0: seq<nat>, pos0: nat,
                      ghost lens0: seq<nat>, ghost row: seq<nat>)
    returns (cu: seq<nat>, pos: nat)
    requires size > 0 && Offsets(cu0, lens0) && |cu0| == |lens0| && pos0 == Sum(lens0)
    requires row == ChunkLens(numComputed, newTokens, size)
    ensures |cu| == |lens0 + row| && Offsets(cu, lens0 + row) && pos == Sum(lens0 + row)
  {
    cu, pos := cu0, pos0;
    var left := newTokens;
    ghost var lens := lens0;
    if numComputed % size != 0 {
      cu := cu + [pos];
      HeadBound(numComputed, size);
      var chunkLen := Min(Cdiv(numComputed, size) * size - numComputed, left);
      OffsetsSnoc(cu0, lens, chunkLen);
      pos := pos + chunkLen;
      left := left - chunkLen;
      lens := lens + [chunkLen];
    }
    ghost var goal := lens0 + row;
    assert lens0 + [] == lens0;
    assert goal == lens + FullChunks(left, size);
    while left > 0
      invariant Offsets(cu, lens) && |cu| == |lens| && pos == Sum(lens)
      invariant goal == lens + FullChunks(left, size)
    {
      var chunkLen := Min(size, left);
      OffsetsSnoc(cu, lens, chunkLen);
      cu := cu + [pos];
      pos := pos + chunkLen;
      left := left - chunkLen;
      assert lens + ([chunkLen] + FullChunks(left, size)) == lens + [chunkLen] + FullChunks(left, size);
      lens := lens + [chunkLen];
    }
    assert goal == lens;
  }

  /** `cu` holds the chunk offsets and `lastChunk[r]` the index of request `r`'s last chunk. */
  ghost predicate Metadata(rows: seq<seq<nat>>, cu: seq<nat>, lastChunk: seq<int>) {
    && |cu| == |Flat(rows, |rows|)| + 1
    && Offsets(cu, Flat(rows, |rows|))
    && |lastChunk| == |rows|
    && forall r :: 0 <= r < |rows| ==> lastChunk[r] == |Flat(rows, r + 1)| - 1
  }

  /** The builder's variables after the first `r` requests. */
  ghost predicate Partial(rows: seq<seq<nat>>, r: nat, cu: seq<nat>, lastChunk: seq<int>, pos: nat) {
    && r <= |rows| && |lastChunk| == r
    && |cu| == |Flat(rows, r)| && Offsets(cu, Flat(rows, r)) && pos == Sum(Flat(rows, r))
    && forall i :: 0 <= i < r ==> lastChunk[i] == |Flat(rows, i + 1)| - 1
  }

  lemma PartialStep(rows: seq<seq<nat>>, r: nat, cu0: seq<nat>, lastChunk: seq<int>, pos0: nat, cu: seq<nat>, pos: nat)
    requires Partial(rows, r, cu0, lastChunk, pos0) && r < |rows|
    requires |cu| == |Flat(rows, r) + rows[r]| && Offsets(cu, Flat(rows, r) + rows[r])
    requires pos == Sum(Flat(rows, r) + rows[r])
    ensures Partial(rows, r + 1, cu, lastChunk + [|cu| - 1], pos)
  {
    assert Flat(rows, r + 1) == Flat(rows, r) + rows[r];
  }

  /** `cu_chunk_seqlen` and `last_chunk_indices` for a batch of prefills. */
  method ComputeChunkMetadata(size: nat, computed: seq<nat>, starts: seq<nat>)
    returns (cu: seq<nat>, lastChunk: seq<int>)
    requires size > 0 && Requests(computed, starts)
    ensures Metadata(Rows(size, computed, starts), cu, lastChunk)
  {
    cu, lastChunk := [], [];
    var pos := 0;
    ghost var rows := Rows(size, computed, starts);
    for r := 0 to |computed|
      invariant Partial(rows, r, cu, lastChunk, pos)
    {
      ghost var cu0, pos0 := cu, pos;
      cu, pos := ChunkRequest(size, computed[r], NewTokens(computed, starts, r), cu, pos, Flat(rows, r), rows[r]);
      PartialStep(rows, r, cu0, lastChunk, pos0, cu, pos);
      lastChunk := lastChunk + [|cu| - 1];
    }
    OffsetsEnd(cu, Flat(rows, |rows|));
    cu := cu + [pos];
  }

  lemma OffsetsEnd(cu: seq<nat>, lens: seq<nat>)
    requires Offsets(cu, lens) && |cu| == |lens|
    ensures Offsets(cu + [Sum(lens)], lens)
  {
    assert lens[..|lens|] == lens;
  }

  // ----- what the metadata says about one request

  lemma {:induction false} FlatPrefix(rows: seq<seq<nat>>, r: nat, n: nat)
    requires r <= n <= |rows|
    ensures Flat(rows, r) <= Flat(rows, n)
    decreases n
  {
    if r < n {
      FlatPrefix(rows, r, n - 1);
    }
  }

  lemma {:induction false} FlatPositive(rows: seq<seq<nat>>, r: nat)
    requires r <= |rows| && forall b :: 0 <= b < |rows| ==> Positive(rows[b])
    ensures Positive(Flat(rows, r))
    decreases r
  {
    if r > 0 {
      FlatPositive(rows, r - 1);
      assert Positive(rows[r - 1]);
    }
  }

  function FirstOf(lastChunk: seq<int>, r: nat): int
    requires r < |lastChunk|
  {
    if r == 0 then 0 else lastChunk[r - 1] + 1
  }

  /** Request `r` finds its own chunk lengths between its first and last chunk index. */
  lemma RowOffsets(rows: seq<seq<nat>>, cu: seq<nat>, lastChunk: seq<int>, r: nat, c: nat)
    requires Metadata(rows, cu, lastChunk) && r < |rows| && c <= |rows[r]|
    ensures var first := FirstOf(lastChunk, r);
            && 0 <= first && first + |rows[r]| == lastChunk[r] + 1 < |cu|
            && cu[first + c] == cu[first] + Sum(rows[r][..c])
  {
    FlatPrefix(rows, r + 1, |rows|);
    if r > 0 {
      assert lastChunk[r - 1] == |Flat(rows, r)| - 1;
    }
    PrefixSums(Flat(rows, |rows|), Flat(rows, r), rows[r], c);
  }

  lemma PrefixSums(all: seq<nat>, before: seq<nat>, row: seq<nat>, c: nat)
    requires before + row <= all && c <= |row|
    ensures Sum(all[..|before| + c]) - Sum(all[..|before|]) == Sum(row[..c])
  {
    assert all[..|before| + c] == before + row[..c];
    assert all[..|before|] == before;
    SumAppend(before, row[..c]);
  }

  /** Chunk offsets strictly increase when no chunk is empty. */
  lemma OffsetsIncrease(rows: seq<seq<nat>>, cu: seq<nat>, lastChunk: seq<int>)
    requires Metadata(rows, cu, lastChunk)
    requires forall b :: 0 <= b < |rows| ==> Positive(rows[b])
    ensures forall i, j :: 0 <= i < j < |cu| ==> cu[i] < cu[j]
  {
    var lens := Flat(rows, |rows|);
    FlatPositive(rows, |rows|);
    forall i, j | 0 <= i < j < |cu| ensures cu[i] < cu[j] {
      SumIncreases(lens, i, j);
    }
  }
}
