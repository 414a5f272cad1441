/** The split of each data-parallel rank's tokens over its sequence-parallel ranks. */
module RankSplit {
  import Sums

  function Repeat(x: nat, n: nat): (r: seq<nat>)
    ensures |r| == n && forall i :: 0 <= i < n ==> r[i] == x
  {
    seq(n, _ => x)
  }

  function Times(a: nat, b: nat): nat {
    if a == 0 then 0 else Times(a - 1, b) + b
  }

  lemma {:induction false} TimesIs(a: nat, b: nat)
    ensures Times(a, b) == a * b
  {
    if a > 0 {
      TimesIs(a - 1, b);
      assert a * b == (a - 1) * b + b;
    }
  }

  function RepeatInterleave(s: seq<nat>, n: nat): (r: seq<nat>)
    ensures |r| == Times(|s|, n)
  {
    if s == [] then [] else RepeatInterleave(s[..|s| - 1], n) + Repeat(s[|s| - 1], n)
  }

  function CumSum(s: seq<nat>): (r: seq<nat>)
    ensures |r| == |s|
  {
    if s == [] then []
    else
      var before := CumSum(s[..|s| - 1]);
      before + [(if before == [] then 0 else before[|before| - 1]) + s[|s| - 1]]
  }

  function Shares(tokens: seq<nat>, sp: nat): seq<nat>
    requires sp > 0
  {
    seq(|tokens|, d requires 0 <= d < |tokens| => (tokens[d] + sp - 1) / sp)
  }

  /** `_compute_sp_num_tokens`, published by `sp_local_sizes`. */
  function LocalSizes(tokens: seq<nat>, sp: nat): seq<nat>
    requires sp > 0
  {
    RepeatInterleave(Shares(tokens, sp), sp)
  }

  /** `cu_tokens_across_sp`. */
  function CuTokens(tokens: seq<nat>, sp: nat): seq<nat>
    requires sp > 0
  {
    CumSum(RepeatInterleave(seq(|tokens|, d requires 0 <= d < |tokens| => (tokens[d] - 1 + sp) / sp), sp))
  }

  lemma {:induction false} CumSumAt(s: seq<nat>, i: nat)
    requires i < |s|
    ensures CumSum(s)[i] == Sums.Sum(s[..i + 1])
    decreases |s|
  {
    var n := |s| - 1;
    if i < n {
      CumSumAt(s[..n], i);
      assert s[..n][..i + 1] == s[..i + 1];
    } else {
      assert s[..i + 1] == s;
      if n > 0 {
        CumSumAt(s[..n], n - 1);
        assert s[..n][..n] == s[..n];
      }
    }
  }

  /** The cumulative tokens are the running sums of the published sizes. */
  lemma RunningSums(tokens: seq<nat>, sp: nat, i: nat)
    requires sp > 0 && i < |LocalSizes(tokens, sp)|
    ensures |CuTokens(tokens, sp)| == |LocalSizes(tokens, sp)| == |tokens| * sp
    ensures CuTokens(tokens, sp)[i] == Sums.Sum(LocalSizes(tokens, sp)[..i + 1])
  {
    var x := Shares(tokens, sp);
    var y := seq(|tokens|, d requires 0 <= d < |tokens| => (tokens[d] - 1 + sp) / sp);
    assert x == y;
    TimesIs(|tokens|, sp);
    CumSumAt(LocalSizes(tokens, sp), i);
  }

  lemma {:induction false} ShareAt(s: seq<nat>, sp: nat, d: nat, j: nat)
    requires d < |s| && j < sp
    ensures d * sp + j < |RepeatInterleave(s, sp)| && RepeatInterleave(s, sp)[d * sp + j] == s[d]
    decreases |s|
  {
    var n := |s| - 1;
    TimesIs(n, sp);
    if d < n {
      ShareAt(s[..n], sp, d, j);
    }
  }

  lemma ShareBounds(t: nat, sp: nat)
    requires sp > 0
    ensures var q := (t + sp - 1) / sp;
            t <= q * sp <= t + sp - 1 && (q * sp == t <==> t % sp == 0)
  {
    var a := t + sp - 1;
    var q := a / sp;
    assert a == q * sp + a % sp;
    if t % sp == 0 {
      var p := t / sp;
      assert t == p * sp;
      Sums.DivUnique(a, sp, p, sp - 1);
    } else if q * sp == t {
      Sums.DivUnique(t, sp, q, 0);
    }
  }

  /** Data-parallel rank `d` has the ranks from `d * sp` on, each with the least equal share that
      covers its tokens. */
  lemma RankShare(tokens: seq<nat>, sp: nat, d: nat, j: nat)
    requires d < |tokens| && j < sp
    ensures d * sp + j < |LocalSizes(tokens, sp)|
    ensures var q := LocalSizes(tokens, sp)[d * sp + j];
            tokens[d] <= q * sp && forall p: nat :: tokens[d] <= p * sp ==> q <= p
  {
    ShareAt(Shares(tokens, sp), sp, d, j);
    ShareBounds(tokens[d], sp);
    var q := Shares(tokens, sp)[d];
    forall p: nat | tokens[d] <= p * sp ensures q <= p {
      if p < q {
        Sums.Multiples(p, q, sp);
      }
    }
  }

  lemma {:induction false} RepeatSum(x: nat, n: nat)
    ensures Sums.Sum(Repeat(x, n)) == x * n
  {
    if n > 0 {
      RepeatSum(x, n - 1);
      assert Repeat(x, n)[..n - 1] == Repeat(x, n - 1);
      assert x * n == x * (n - 1) + x;
    }
  }

  ghost predicate Divides(tokens: seq<nat>, sp: nat)
    requires sp > 0
  {
    forall d :: 0 <= d < |tokens| ==> tokens[d] % sp == 0
  }

  /** The published sizes cover all tokens and exceed them by at most `sp - 1` for each data-parallel
      rank; by nothing exactly when every token count divides evenly. */
  lemma {:induction false} SizesCover(tokens: seq<nat>, sp: nat)
    requires sp > 0
    ensures Sums.Sum(tokens) <= Sums.Sum(LocalSizes(tokens, sp)) <= Sums.Sum(tokens) + Times(|tokens|, sp - 1)
    ensures Sums.Sum(LocalSizes(tokens, sp)) == Sums.Sum(tokens) <==> Divides(tokens, sp)
    decreases |tokens|
  {
    if tokens != [] {
      var n := |tokens| - 1;
      var q := (tokens[n] + sp - 1) / sp;
      SizesCover(tokens[..n], sp);
      ShareBounds(tokens[n], sp);
      assert Shares(tokens, sp)[..n] == Shares(tokens[..n], sp);
      assert LocalSizes(tokens, sp) == LocalSizes(tokens[..n], sp) + Repeat(q, sp);
      Sums.SumAppend(LocalSizes(tokens[..n], sp), Repeat(q, sp));
      RepeatSum(q, sp);
      assert tokens == tokens[..n] + [tokens[n]];
    }
  }

  /** The last cumulative count, for at least one data-parallel rank. */
  lemma LastCovers(tokens: seq<nat>, sp: nat)
    requires sp > 0 && tokens != []
    ensures var cu := CuTokens(tokens, sp);
            && cu != []
            && Sums.Sum(tokens) <= cu[|cu| - 1] <= Sums.Sum(tokens) + |tokens| * (sp - 1)
            && (cu[|cu| - 1] == Sums.Sum(tokens) <==> Divides(tokens, sp))
  {
    var sizes := LocalSizes(tokens, sp);
    assert Times(|tokens|, sp) >= sp;
    LastIsSum(tokens, sp);
    SizesCover(tokens, sp);
    TimesIs(|tokens|, sp - 1);
  }

  lemma LastIsSum(tokens: seq<nat>, sp: nat)
    requires sp > 0 && LocalSizes(tokens, sp) != []
    ensures var cu := CuTokens(tokens, sp);
            cu != [] && cu[|cu| - 1] == Sums.Sum(LocalSizes(tokens, sp))
  {
    var sizes := LocalSizes(tokens, sp);
    RunningSums(tokens, sp, |sizes| - 1);
    assert sizes[..|sizes|] == sizes;
  }
}
