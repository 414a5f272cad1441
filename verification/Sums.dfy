/** Sums of lengths, and the little division the proofs about blocks need. */
module Sums {

  function Sum(s: seq<nat>): nat {
    if s == [] then 0 else Sum(s[..|s| - 1]) + s[|s| - 1]
  }

  ghost predicate Positive(s: seq<nat>) {
    forall i :: 0 <= i < |s| ==> s[i] >= 1
  }

  lemma {:induction false} Multiples(i: nat, j: nat, b: nat)
    requires i < j
    ensures i * b + b <= j * b
    decreases j
  {
    assert j * b == (j - 1) * b + b;
    if i < j - 1 {
      Multiples(i, j - 1, b);
    }
  }

  lemma DivUnique(a: nat, b: nat, q: nat, r: nat)
    requires b > 0 && a == q * b + r && r < b
    ensures a / b == q && a % b == r
  {
    var p := a / b;
    assert a == p * b + a % b;
    if p < q {
      Multiples(p, q, b);
    } else if q < p {
      Multiples(q, p, b);
    }
  }

  lemma {:induction false} SumAppend(s: seq<nat>, t: seq<nat>)
    ensures Sum(s + t) == Sum(s) + Sum(t)
    decreases |t|
  {
    if t == [] {
      assert s + t == s;
    } else {
      var n := |t| - 1;
      assert (s + t)[..|s + t| - 1] == s + t[..n];
      SumAppend(s, t[..n]);
    }
  }

  lemma {:induction false} SumIncreases(s: seq<nat>, i: nat, j: nat)
    requires i < j <= |s| && Positive(s)
    ensures Sum(s[..i]) < Sum(s[..j])
    decreases j
  {
    assert s[..j][..j - 1] == s[..j - 1];
    if i < j - 1 {
      SumIncreases(s, i, j - 1);
    }
  }

  lemma SumSnoc(s: seq<nat>, c: nat)
    requires c < |s|
    ensures Sum(s[..c + 1]) == Sum(s[..c]) + s[c]
  {
    assert s[..c + 1][..c] == s[..c];
  }
}
