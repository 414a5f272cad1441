/** The bad-word logits processor: which tokens it forbids, over one call and over whole generations. */
module BadWords {
  import opened Wrappers

  /** A logit. Addition of infinities follows section 6.1 of IEEE 754-2019. */
  datatype Float = NegInf | Fin(value: real) | PosInf | NaN

  function Add(x: Float, y: Float): Float {
    match (x, y)
    case (NaN, _) => NaN
    case (_, NaN) => NaN
    case (Fin(a), Fin(b)) => Fin(a + b)
    case (Fin(_), _) => y
    case (_, Fin(_)) => x
    case _ => if x == y then x else NaN
  }

  /** A sampler can only pick a token whose logit is above minus infinity. */
  predicate Above(x: Float) {
    x.Fin? || x.PosInf?
  }

  datatype Error = IdsOutOfBounds(ids: seq<int>) | IndexOutOfRange | ShapeMismatch
  datatype Result = Ok(logits: seq<Float>) | Err(error: Error)

  const ZERO := Fin(0.0)

  type Word = seq<int>

  // ----- what is forbidden

  /** The word is a suffix of the history with the token appended. */
  predicate Completes(w: Word, past: seq<int>, t: int) {
    w != [] && |w| <= |past| + 1 && w == (past + [t])[|past| + 1 - |w|..]
  }

  ghost predicate Banned(words: seq<Word>, past: seq<int>, t: int) {
    exists i :: 0 <= i < |words| && Completes(words[i], past, t)
  }

  /** Forbidden by one of the first `k` words, counting only one-token words or only the others. */
  ghost predicate BannedBy(words: seq<Word>, k: nat, single: bool, past: seq<int>, t: int)
    requires k <= |words|
  {
    exists i :: 0 <= i < k && (|words[i]| == 1) == single && Completes(words[i], past, t)
  }

  lemma BannedSplits(words: seq<Word>, past: seq<int>, t: int)
    ensures Banned(words, past, t) <==>
            BannedBy(words, |words|, true, [], t) || BannedBy(words, |words|, false, past, t)
  {
    forall i | 0 <= i < |words| && |words[i]| == 1
      ensures Completes(words[i], past, t) == Completes(words[i], [], t)
    {
      assert (past + [t])[|past|..] == [t] && ([] + [t])[0..] == [t];
    }
    if Banned(words, past, t) {
      var i :| 0 <= i < |words| && Completes(words[i], past, t);
      assert |words[i]| == 1 ==> Completes(words[i], [], t);
    }
  }

  /** A forbidden logit: minus infinity, or not a number if it was plus infinity. */
  function Masked(x: Float): Float {
    if x.Fin? || x.NegInf? then NegInf else NaN
  }

  function Mask(banned: bool, x: Float): Float {
    if banned then Masked(x) else x
  }

  /** What a call returns: the forbidden logits masked and all others as they were. */
  ghost function Processed(words: seq<Word>, past: seq<int>, logits: seq<Float>): (r: seq<Float>)
    ensures |r| == |logits|
    ensures forall t :: 0 <= t < |logits| ==> r[t] == Mask(Banned(words, past, t), logits[t])
  {
    seq(|logits|, t requires 0 <= t < |logits| => Mask(Banned(words, past, t), logits[t]))
  }

  /** A token is forced to minus infinity exactly when appending it completes a banned word, for
      finite logits; the others come back unchanged. */
  lemma MaskingIsExact(words: seq<Word>, past: seq<int>, logits: seq<Float>, t: nat)
    requires t < |logits| && logits[t].Fin?
    ensures Processed(words, past, logits)[t] == NegInf <==> Banned(words, past, t)
    ensures Processed(words, past, logits)[t] == logits[t] <==> !Banned(words, past, t)
  {
    assert Processed(words, past, logits)[t] == Mask(Banned(words, past, t), logits[t]);
  }

  /** Whatever the logits, also infinite ones: a token can be picked exactly when it could be before
      and completes no banned word. */
  lemma PickableIff(words: seq<Word>, past: seq<int>, logits: seq<Float>, t: nat)
    requires t < |logits|
    ensures Above(Processed(words, past, logits)[t]) <==> Above(logits[t]) && !Banned(words, past, t)
  {
    assert Processed(words, past, logits)[t] == Mask(Banned(words, past, t), logits[t]);
  }

  /** A forbidden token with logit plus infinity is not forced to minus infinity. */
  lemma InfiniteLogitBecomesNaN(words: seq<Word>, past: seq<int>, logits: seq<Float>, t: nat)
    requires t < |logits| && Banned(words, past, t)
    ensures Processed(words, past, logits)[t] == NegInf <==> logits[t] != PosInf && logits[t] != NaN
    ensures Processed(words, past, logits)[t] == NaN <==> logits[t] == PosInf || logits[t] == NaN
  {
    assert Processed(words, past, logits)[t] == Mask(Banned(words, past, t), logits[t]);
  }

  // ----- whole generations

  ghost predicate Occurs(w: Word, history: seq<int>, i: nat) {
    i + |w| <= |history| && history[i..i + |w|] == w
  }

  /** No banned word is a contiguous part of the history. */
  ghost predicate Clean(words: seq<Word>, history: seq<int>) {
    forall k, i: nat :: 0 <= k < |words| && words[k] != [] ==> !Occurs(words[k], history, i)
  }

  /** Token by token, each pick had a processed logit above minus infinity. */
  ghost predicate Generated(words: seq<Word>, history: seq<int>, logits: seq<seq<Float>>, tokens: seq<int>)
    decreases |tokens|
  {
    |logits| == |tokens|
    && (tokens != [] ==>
          var n := |tokens| - 1;
          && Generated(words, history, logits[..n], tokens[..n])
          && 0 <= tokens[n] < |logits[n]|
          && Above(Processed(words, history + tokens[..n], logits[n])[tokens[n]]))
  }

  lemma OccursLast(w: Word, history: seq<int>, t: int, i: nat)
    requires w != [] && Occurs(w, history + [t], i)
    ensures Occurs(w, history, i) || Completes(w, history, t)
  {
    var more := history + [t];
    if i + |w| <= |history| {
      assert more[i..i + |w|] == history[i..i + |w|];
    } else {
      assert more[i..i + |w|] == more[|history| + 1 - |w|..];
    }
  }

  /** Appending a token keeps a clean history clean exactly when it completes no banned word. */
  lemma CleanExtends(words: seq<Word>, history: seq<int>, t: int)
    requires Clean(words, history)
    ensures Clean(words, history + [t]) <==> !Banned(words, history, t)
  {
    var more := history + [t];
    if !Clean(words, more) {
      var k, i: nat :| 0 <= k < |words| && words[k] != [] && Occurs(words[k], more, i);
      OccursLast(words[k], history, t, i);
    }
    if Banned(words, history, t) {
      var k :| 0 <= k < |words| && Completes(words[k], history, t);
      var i := |more| - |words[k]|;
      assert more[i..i + |words[k]|] == more[i..];
      assert Occurs(words[k], more, i);
    }
  }

  lemma CleanPrefix(words: seq<Word>, history: seq<int>, t: int)
    requires Clean(words, history + [t])
    ensures Clean(words, history)
  {
    var more := history + [t];
    if !Clean(words, history) {
      var k, i: nat :| 0 <= k < |words| && words[k] != [] && Occurs(words[k], history, i);
      assert more[i..i + |words[k]|] == history[i..i + |words[k]|];
      assert Occurs(words[k], more, i);
    }
  }

  lemma Snoc(history: seq<int>, tokens: seq<int>)
    requires tokens != []
    ensures history + tokens == history + tokens[..|tokens| - 1] + [tokens[|tokens| - 1]]
  {
    assert tokens == tokens[..|tokens| - 1] + [tokens[|tokens| - 1]];
  }

  /** No banned word ever appears: from a clean history, whatever the logits of every step, also
      infinite ones, every generation stays clean. */
  lemma {:induction false} NeverAppear(words: seq<Word>, history: seq<int>, logits: seq<seq<Float>>, tokens: seq<int>)
    requires Clean(words, history) && Generated(words, history, logits, tokens)
    ensures Clean(words, history + tokens)
    decreases |tokens|
  {
    if tokens == [] {
      assert history + tokens == history;
    } else {
      var n := |tokens| - 1;
      NeverAppear(words, history, logits[..n], tokens[..n]);
      PickableIff(words, history + tokens[..n], logits[n], tokens[n]);
      CleanExtends(words, history + tokens[..n], tokens[n]);
      Snoc(history, tokens);
    }
  }

  /** Nothing else is ruled out: every clean continuation the model could produce is still produced. */
  lemma {:induction false} CleanIsReachable(words: seq<Word>, history: seq<int>, logits: seq<seq<Float>>,
                                            tokens: seq<int>)
    requires |logits| == |tokens| && Clean(words, history + tokens)
    requires forall n :: 0 <= n < |tokens| ==> 0 <= tokens[n] < |logits[n]| && Above(logits[n][tokens[n]])
    ensures Generated(words, history, logits, tokens)
    decreases |tokens|
  {
    if tokens != [] {
      var n := |tokens| - 1;
      Snoc(history, tokens);
      CleanPrefix(words, history + tokens[..n], tokens[n]);
      CleanIsReachable(words, history, logits[..n], tokens[..n]);
      CleanExtends(words, history + tokens[..n], tokens[n]);
      PickableIff(words, history + tokens[..n], logits[n], tokens[n]);
    }
  }

  // ----- the processor

  function InvalidIn(w: Word, size: nat): seq<int> {
    if w == [] then []
    else
      var n := |w| - 1;
      InvalidIn(w[..n], size) + if w[n] < 0 || w[n] >= size then [w[n]] else []
  }

  /** The ids outside the vocabulary, in the order of the words. */
  function Invalid(words: seq<Word>, size: nat): seq<int> {
    if words == [] then []
    else Invalid(words[..|words| - 1], size) + InvalidIn(words[|words| - 1], size)
  }

  predicate WordWithin(w: Word, size: nat) {
    forall i :: 0 <= i < |w| ==> 0 <= w[i] < size
  }

  ghost predicate Within(words: seq<Word>, size: nat) {
    forall k :: 0 <= k < |words| ==> WordWithin(words[k], size)
  }

  lemma {:induction false} InvalidInIff(w: Word, size: nat)
    ensures InvalidIn(w, size) == [] <==> WordWithin(w, size)
  {
    if w != [] {
      var n := |w| - 1;
      InvalidInIff(w[..n], size);
      assert w == w[..n] + [w[n]];
    }
  }

  lemma {:induction false} InvalidIff(words: seq<Word>, size: nat)
    ensures Invalid(words, size) == [] <==> Within(words, size)
  {
    if words != [] {
      var n := |words| - 1;
      InvalidIff(words[..n], size);
      InvalidInIff(words[n], size);
      assert words == words[..n] + [words[n]];
      assert Within(words, size) <==> Within(words[..n], size) && WordWithin(words[n], size);
    }
  }

  /** The ids of all words, one after the other. */
  function AllIds(words: seq<Word>): seq<int> {
    if words == [] then [] else AllIds(words[..|words| - 1]) + words[|words| - 1]
  }

  /** `at` lists, in order, the positions of the ids outside the vocabulary, and `out` what is there. */
  ghost predicate Picks(ids: seq<int>, size: nat, at: seq<nat>, out: seq<int>) {
    && |at| == |out|
    && (forall i, j :: 0 <= i < j < |at| ==> at[i] < at[j])
    && (forall i :: 0 <= i < |at| ==> at[i] < |ids| && ids[at[i]] == out[i])
    && (forall p: nat :: p < |ids| ==> (p in at <==> !(0 <= ids[p] < size)))
  }

  lemma PicksSnoc(ids: seq<int>, size: nat, at: seq<nat>, out: seq<int>, id: int)
    requires Picks(ids, size, at, out)
    ensures 0 <= id < size ==> Picks(ids + [id], size, at, out)
    ensures !(0 <= id < size) ==> Picks(ids + [id], size, at + [|ids|], out + [id])
  {
    assert |ids| !in at;
  }

  lemma {:induction false} InvalidInPicks(w: Word, size: nat) returns (at: seq<nat>)
    ensures Picks(w, size, at, InvalidIn(w, size))
    decreases |w|
  {
    if w == [] {
      at := [];
    } else {
      var n := |w| - 1;
      assert w == w[..n] + [w[n]];
      at := InvalidInPicks(w[..n], size);
      PicksSnoc(w[..n], size, at, InvalidIn(w[..n], size), w[n]);
      at := if 0 <= w[n] < size then at else at + [n];
    }
  }

  lemma {:induction false} InvalidInAppend(v: Word, w: Word, size: nat)
    ensures InvalidIn(v + w, size) == InvalidIn(v, size) + InvalidIn(w, size)
    decreases |w|
  {
    if w == [] {
      assert v + w == v;
    } else {
      var n := |w| - 1;
      assert (v + w)[..|v + w| - 1] == v + w[..n];
      InvalidInAppend(v, w[..n], size);
    }
  }

  lemma {:induction false} InvalidOfAll(words: seq<Word>, size: nat)
    ensures InvalidIn(AllIds(words), size) == Invalid(words, size)
    decreases |words|
  {
    if words != [] {
      var n := |words| - 1;
      InvalidOfAll(words[..n], size);
      InvalidInAppend(AllIds(words[..n]), words[n], size);
    }
  }

  /** The error lists the ids outside the vocabulary, all of them, in the order of the words, and each as often as
      the words have it. */
  lemma InvalidPicks(words: seq<Word>, size: nat) returns (at: seq<nat>)
    ensures Picks(AllIds(words), size, at, Invalid(words, size))
  {
    at := InvalidInPicks(AllIds(words), size);
    InvalidOfAll(words, size);
  }

  /** Minus infinity for the tokens that some of the first `k` words of this kind forbid, else zero. */
  ghost predicate IsBias(words: seq<Word>, k: nat, single: bool, past: seq<int>, bias: seq<Float>)
    requires k <= |words|
  {
    forall t :: 0 <= t < |bias| ==> bias[t] == Mask(BannedBy(words, k, single, past, t), ZERO)
  }

  /** The word is looked at and has no last token, or one that the logits do not have. */
  predicate IndexFails(w: Word, past: seq<int>, size: nat) {
    |w| != 1 && |w| <= |past| + 1 && (w == [] || w[|w| - 1] < 0 || w[|w| - 1] >= size)
  }

  /** The position of index `t` in a sequence that is stretched when it has one element. */
  function Stretch(size: nat, t: nat): nat {
    if size == 1 then 0 else t
  }

  function StretchedSize(m: nat, n: nat): nat {
    if n == 1 then m else n
  }

  /** Tensor addition: equal sizes, or one side of size one. */
  function AddAll(x: seq<Float>, y: seq<Float>): (r: Option<seq<Float>>)
    ensures r.None? <==> |x| != |y| && |x| != 1 && |y| != 1
    ensures r.Some? ==> |r.value| == StretchedSize(|x|, |y|)
    ensures r.Some? ==> forall t :: 0 <= t < |r.value| ==> r.value[t] == Add(x[Stretch(|x|, t)], y[Stretch(|y|, t)])
  {
    if |x| != |y| && |x| != 1 && |y| != 1 then None
    else
      var n := StretchedSize(|x|, |y|);
      Some(seq(n, t requires 0 <= t < n => Add(x[Stretch(|x|, t)], y[Stretch(|y|, t)])))
  }

  /** Adding both biases masks what either forbids. */
  lemma AddMasks(x: Float, p: bool, q: bool)
    ensures Add(Add(x, Mask(p, ZERO)), Mask(q, ZERO)) == Mask(p || q, x)
  {
  }

  /** The result when the table was built for `size` tokens, perhaps not the size of the logits: the
      two sizes agree or the side of size one is stretched. */
  ghost predicate IsOutput(words: seq<Word>, past: seq<int>, logits: seq<Float>, size: nat, out: seq<Float>) {
    && |out| == StretchedSize(|logits|, size)
    && (|logits| == size || |logits| == 1 || size == 1)
    && (forall t :: 0 <= t < |out| ==> IsOutputAt(words, past, logits, size, t, out[t]))
  }

  ghost predicate IsOutputAt(words: seq<Word>, past: seq<int>, logits: seq<Float>, size: nat, t: nat, x: Float) {
    var i, j := Stretch(size, t), Stretch(|logits|, t);
    && j < |logits|
    && x == Mask(BannedBy(words, |words|, true, [], i) || BannedBy(words, |words|, false, past, j), logits[j])
  }

  lemma SumIsOutput(words: seq<Word>, past: seq<int>, logits: seq<Float>, table: seq<Float>, bias: seq<Float>)
    requires IsBias(words, |words|, true, [], table) && IsBias(words, |words|, false, past, bias) && |bias| == |logits|
    requires |logits| == |table| || |logits| == 1 || |table| == 1
    ensures var out := AddAll(AddAll(logits, table).value, bias);
            out.Some? && IsOutput(words, past, logits, |table|, out.value)
  {
    var sum := AddAll(logits, table).value;
    var out := AddAll(sum, bias).value;
    forall t | 0 <= t < |out| ensures IsOutputAt(words, past, logits, |table|, t, out[t]) {
      var i, j := Stretch(|table|, t), Stretch(|logits|, t);
      assert sum[Stretch(|sum|, t)] == Add(logits[j], table[i]);
      AddMasks(logits[j], BannedBy(words, |words|, true, [], i), BannedBy(words, |words|, false, past, j));
    }
  }

  lemma OutputAtIsMask(words: seq<Word>, past: seq<int>, logits: seq<Float>, t: nat, x: Float)
    requires t < |logits| && IsOutputAt(words, past, logits, |logits|, t, x)
    ensures x == Mask(Banned(words, past, t), logits[t])
  {
    BannedSplits(words, past, t);
  }

  /** With one vocabulary size the output is the masked logits. */
  lemma OutputIsProcessed(words: seq<Word>, past: seq<int>, logits: seq<Float>, out: seq<Float>)
    requires IsOutput(words, past, logits, |logits|, out)
    ensures out == Processed(words, past, logits)
  {
    var expected := Processed(words, past, logits);
    forall t | 0 <= t < |logits| ensures out[t] == expected[t] {
      OutputAtIsMask(words, past, logits, t, out[t]);
    }
  }

  ghost predicate SomeIndexFails(words: seq<Word>, past: seq<int>, size: nat) {
    exists k :: 0 <= k < |words| && IndexFails(words[k], past, size)
  }

  lemma BannedByStep(words: seq<Word>, k: nat, single: bool, past: seq<int>, t: int)
    requires k < |words|
    ensures BannedBy(words, k + 1, single, past, t) <==>
            BannedBy(words, k, single, past, t) || ((|words[k]| == 1) == single && Completes(words[k], past, t))
  {
  }

  /** What the body of the loop over the words changes. */
  lemma BiasStep(words: seq<Word>, k: nat, single: bool, past: seq<int>, bias: seq<Float>, more: seq<Float>)
    requires k < |words| && |more| == |bias| && IsBias(words, k, single, past, bias)
    requires forall t :: 0 <= t < |bias| ==>
               more[t] == if (|words[k]| == 1) == single && Completes(words[k], past, t) then NegInf else bias[t]
    ensures IsBias(words, k + 1, single, past, more)
  {
    forall t | 0 <= t < |bias| ensures more[t] == Mask(BannedBy(words, k + 1, single, past, t), ZERO) {
      BannedByStep(words, k, single, past, t);
    }
  }

  /** Marking the last token of a longer word, or not. */
  lemma MarkStep(words: seq<Word>, k: nat, past: seq<int>, bias: seq<Float>, more: seq<Float>, isMatch: bool)
    requires k < |words| && 1 < |words[k]| <= |past| + 1 && IsBias(words, k, false, past, bias)
    requires var w := words[k];
             var last := w[|w| - 1];
             && 0 <= last < |bias| && isMatch == (past[|past| - (|w| - 1)..] == w[..|w| - 1])
             && more == bias[last := Add(bias[last], if isMatch then NegInf else ZERO)]
    ensures IsBias(words, k + 1, false, past, more)
  {
    MatchCompletes(words[k], past);
    BiasStep(words, k, false, past, bias, more);
  }

  class NoBadWords {
    const badWords: seq<Word>
    var wordBias: Option<seq<Float>>

    constructor (words: seq<Word>)
      ensures badWords == words && wordBias.None? && Valid()
    {
      badWords, wordBias := words, None;
    }

    /** The table, once built, is the table of the one-token words, and was built for a vocabulary that
        holds all ids. */
    ghost predicate Valid()
      reads this
    {
      wordBias.Some? ==> IsBias(badWords, |badWords|, true, [], wordBias.value) && Within(badWords, |wordBias.value|)
    }

    method CheckTokenIdsBounds(size: nat) returns (ids: seq<int>)
      ensures ids == Invalid(badWords, size)
    {
      ids := [];
      for k := 0 to |badWords|
        invariant ids == Invalid(badWords[..k], size)
      {
        var w := badWords[k];
        ghost var before := ids;
        for i := 0 to |w|
          invariant ids == before + InvalidIn(w[..i], size)
        {
          assert w[..i + 1][..i] == w[..i];
          if w[i] < 0 || w[i] >= size {
            ids := ids + [w[i]];
          }
        }
        assert w[..|w|] == w;
        assert badWords[..k + 1][..k] == badWords[..k];
      }
      assert badWords[..|badWords|] == badWords;
    }

    method InitWordBias(size: nat) returns (invalid: seq<int>)
      requires wordBias.None?
      modifies this
      ensures Valid()
      ensures invalid == Invalid(badWords, size)
      ensures if invalid != [] then wordBias.None? else wordBias.Some? && |wordBias.value| == size
    {
      invalid := CheckTokenIdsBounds(size);
      InvalidIff(badWords, size);
      if invalid != [] {
        return;
      }
      var table := seq(size, _ => ZERO);
      for k := 0 to |badWords|
        invariant |table| == size
        invariant IsBias(badWords, k, true, [], table)
      {
        ghost var before := table;
        if |badWords[k]| == 1 {
          var id := badWords[k][0];
          assert badWords[k] == [id] && WordWithin(badWords[k], size);
          table := table[id := NegInf];
        }
        BiasStep(badWords, k, true, [], before, table);
      }
      wordBias := Some(table);
    }

    /** The loop of a call over the words of more than one token. */
    method LastTokenBias(past: seq<int>, size: nat) returns (r: Option<seq<Float>>)
      ensures r.None? <==> SomeIndexFails(badWords, past, size)
      ensures r.Some? ==> |r.value| == size && IsBias(badWords, |badWords|, false, past, r.value)
    {
      var bias := seq(size, _ => ZERO);
      for k := 0 to |badWords|
        invariant |bias| == size
        invariant IsBias(badWords, k, false, past, bias)
        invariant forall j :: 0 <= j < k ==> !IndexFails(badWords[j], past, size)
      {
        var w := badWords[k];
        ghost var before := bias;
        if |w| != 1 && |w| <= |past| + 1 {
          if IndexFails(w, past, size) {
            return None;
          }
          var prefixLength := |w| - 1;
          var lastTokenId := w[|w| - 1];
          var isMatch := past[|past| - prefixLength..] == w[..prefixLength];
          bias := bias[lastTokenId := Add(bias[lastTokenId], if isMatch then NegInf else ZERO)];
          MarkStep(badWords, k, past, before, bias, isMatch);
        } else {
          BiasStep(badWords, k, false, past, bias, bias);
        }
      }
      r := Some(bias);
    }

    /** One call. The table is built by the first call that gets past the bounds check and is never
        changed after; with logits of the table's size the result is the masked logits. */
    method Call(past: seq<int>, logits: seq<Float>) returns (r: Result)
      requires Valid()
      modifies this
      ensures Valid()
      ensures wordBias == old(wordBias) || (old(wordBias).None? && wordBias.Some? && |wordBias.value| == |logits|)
      ensures wordBias.None? <==> old(wordBias).None? && !Within(badWords, |logits|)
      ensures wordBias.None? ==> r == Err(IdsOutOfBounds(Invalid(badWords, |logits|)))
      ensures wordBias.Some? ==> IsReply(r, badWords, |wordBias.value|, past, logits)
      ensures wordBias.Some? && |wordBias.value| == |logits| ==>
                r == if SomeIndexFails(badWords, past, |logits|) then Err(IndexOutOfRange)
                     else Ok(Processed(badWords, past, logits))
    {
      InvalidIff(badWords, |logits|);
      if wordBias.None? {
        var invalid := InitWordBias(|logits|);
        if invalid != [] {
          return Err(IdsOutOfBounds(invalid));
        }
      }
      var bias := LastTokenBias(past, |logits|);
      if bias.None? {
        return Err(IndexOutOfRange);
      }
      var sum := AddAll(logits, wordBias.value);
      if sum.None? {
        return Err(ShapeMismatch);
      }
      SumIsOutput(badWords, past, logits, wordBias.value, bias.value);
      r := Ok(AddAll(sum.value, bias.value).value);
      if |logits| == |wordBias.value| {
        OutputIsProcessed(badWords, past, logits, r.logits);
      }
    }
  }

  lemma GeneratedSnoc(words: seq<Word>, history: seq<int>, logits: seq<seq<Float>>, tokens: seq<int>, n: nat)
    requires n < |tokens| == |logits|
    ensures Generated(words, history, logits[..n + 1], tokens[..n + 1]) <==>
            && Generated(words, history, logits[..n], tokens[..n])
            && 0 <= tokens[n] < |logits[n]|
            && Above(Processed(words, history + tokens[..n], logits[n])[tokens[n]])
  {
    assert logits[..n + 1][..n] == logits[..n] && tokens[..n + 1][..n] == tokens[..n];
  }

  /** Generation with one processor: each pick is appended if its processed logit is above minus
      infinity, and the first that is not ends it. The history stays clean, whatever the logits; the
      first call builds the table, if it is not there yet. */
  method Generate(p: NoBadWords, history: seq<int>, logits: seq<seq<Float>>, picks: seq<int>, size: nat)
    returns (n: nat)
    requires p.Valid() && (p.wordBias.Some? ==> |p.wordBias.value| == size)
    requires Within(p.badWords, size) && [] !in p.badWords && Clean(p.badWords, history)
    requires |logits| == |picks| && forall i :: 0 <= i < |logits| ==> |logits[i]| == size
    modifies p
    ensures p.Valid() && n <= |picks| && Clean(p.badWords, history + picks[..n])
    ensures Generated(p.badWords, history, logits[..n], picks[..n])
    ensures n < |picks| ==> !Generated(p.badWords, history, logits[..n + 1], picks[..n + 1])
  {
    n := 0;
    while n < |picks|
      invariant n <= |picks| && p.Valid() && (p.wordBias.Some? ==> |p.wordBias.value| == size)
      invariant Generated(p.badWords, history, logits[..n], picks[..n])
    {
      OnlyEmptyWordsFail(p.badWords, history + picks[..n], size);
      var r := p.Call(history + picks[..n], logits[n]);
      GeneratedSnoc(p.badWords, history, logits, picks, n);
      if picks[n] < 0 || picks[n] >= size || !Above(r.logits[picks[n]]) {
        break;
      }
      n := n + 1;
    }
    NeverAppear(p.badWords, history, logits[..n], picks[..n]);
  }

  /** The reply of a processor whose table was built for `size` tokens. */
  ghost predicate IsReply(r: Result, words: seq<Word>, size: nat, past: seq<int>, logits: seq<Float>) {
    if SomeIndexFails(words, past, |logits|) then r == Err(IndexOutOfRange)
    else if |logits| != size && |logits| != 1 && size != 1 then r == Err(ShapeMismatch)
    else r.Ok? && IsOutput(words, past, logits, size, r.logits)
  }

  /** Words within the vocabulary fail only if one is empty, and then always. */
  lemma OnlyEmptyWordsFail(words: seq<Word>, past: seq<int>, size: nat)
    requires Within(words, size)
    ensures SomeIndexFails(words, past, size) <==> [] in words
  {
    if [] in words {
      var k :| 0 <= k < |words| && words[k] == [];
      assert IndexFails(words[k], past, size);
    }
  }

  /** The comparison of the loop decides which token completes the word. */
  lemma MatchCompletes(w: Word, past: seq<int>)
    requires 1 < |w| <= |past| + 1
    ensures forall t :: Completes(w, past, t) <==>
                        t == w[|w| - 1] && past[|past| - (|w| - 1)..] == w[..|w| - 1]
  {
    var n := |w| - 1;
    forall t ensures Completes(w, past, t) <==> t == w[n] && past[|past| - n..] == w[..n] {
      var s := (past + [t])[|past| - n..];
      assert s == past[|past| - n..] + [t];
      assert w == w[..n] + [w[n]];
      assert s[..n] == past[|past| - n..] && s[n] == t;
    }
  }
}
