/** The fields of a partition signature at work: what each says about the partition, and a forward run
    that drops exactly the inputs marked as deallocated. */
module PartitionMarks {
  import opened GraphPartition

  // ----- the fields, one by one

  /** A node of the partition produces `x`. */
  ghost predicate ProducedHere(p: seq<Node>, x: Name) {
    exists k :: 0 <= k < |p| && x in p[k].outputs
  }

  /** A node of the partition is the last to use `x`. */
  ghost predicate LastUsedHere(p: seq<Node>, x: Name) {
    exists k :: 0 <= k < |p| && x in p[k].lastUsage
  }

  /** A node of the partition reads or writes `x`. */
  ghost predicate UsedHere(p: seq<Node>, x: Name) {
    exists k :: 0 <= k < |p| && (x in p[k].readNames || x in p[k].writtenNames)
  }

  /** The partition needs `x` from outside: it uses `x`, under this or another name, or is the last to. */
  ghost predicate TakesIn(g: Graph, p: seq<Node>, x: Name) {
    || (exists y :: UsedHere(p, y) && !ProducedHere(p, y) && !IsNone(g, y) && Real(g, y) == x)
    || (LastUsedHere(p, x) && !ProducedHere(p, x) && x in g.names)
  }

  lemma TakesInIff(g: Graph, p: seq<Node>, x: Name)
    ensures x in InputNames(g, p) <==> TakesIn(g, p, x)
  {
    forall y ensures y in Outputs(p) <==> ProducedHere(p, y) {
    }
    forall y ensures y in ToFree(p) <==> LastUsedHere(p, y) {
    }
    forall y ensures y in Touched(p) <==> UsedHere(p, y) {
      if k :| 0 <= k < |p| && (y in p[k].readNames || y in p[k].writtenNames) {
        assert y in p[k].readNames + p[k].writtenNames;
      }
    }
    if x in InputNames(g, p) && !(x in ToFree(p) && x !in Outputs(p) && x in g.names) {
      var y :| y in Touched(p) && !IsNone(g, y) && y !in Outputs(p) && x == Real(g, y);
      assert UsedHere(p, y) && !ProducedHere(p, y);
    }
  }

  /** `x` is an input that the signature marks as deallocated. */
  predicate Marked(s: Signature, x: Name) {
    x in s.inputDeallocation && s.inputDeallocation[x]
  }

  /** What each field of partition `i`'s signature says. */
  lemma FieldsAre(g: Graph, skips: seq<bool>, i: nat, s: Signature)
    requires i < |g.partitions| == |skips| && SignatureAt(g, skips, i, s)
    ensures s.skipCudagraph == skips[i]
    ensures forall x :: x in s.inputNodes <==> x in g.names && TakesIn(g, g.partitions[i], x)
    ensures forall x :: x in s.constantNames <==> x in g.constants && TakesIn(g, g.partitions[i], x)
    ensures s.inputDeallocation.Keys == s.inputNodes
    ensures forall x :: Marked(s, x) <==> x in s.inputNodes && LastUsedHere(g.partitions[i], x)
  {
    var p := g.partitions[i];
    forall x ensures x in InputNames(g, p) <==> TakesIn(g, p, x) {
      TakesInIff(g, p, x);
    }
    forall y ensures y in ToFree(p) <==> LastUsedHere(p, y) {
    }
  }

  /** What a partition returns is an input it keeps, or a buffer it produces, under its real name, that a
      later partition takes or the graph returns. */
  lemma ReturnedIsNeeded(g: Graph, skips: seq<bool>, i: nat, s: Signature, x: Name)
    requires i < |g.partitions| == |skips| && SignatureAt(g, skips, i, s) && x in s.outputNodes
    ensures x in g.names && !IsNone(g, x)
    ensures exists y :: Real(g, y) == x &&
              (|| (y in s.inputNodes && !Marked(s, y))
               || (ProducedHere(g.partitions[i], y) && NeededAfter(g, i, y)))
  {
    var p, unmet := g.partitions[i], Unmet(g, i + 1);
    var kept := set y | y in InputNames(g, p) && y in g.names && y !in ToFree(p);
    var y :| y in (Outputs(p) * unmet) + kept && x == Real(g, y);
    if y in Outputs(p) * unmet {
      UnmetSource(g, i + 1, y);
    } else {
      assert y in s.inputNodes && !Marked(s, y);
    }
  }

  /** A graph output, or an input of a partition after `i`. */
  ghost predicate NeededAfter(g: Graph, i: nat, y: Name) {
    y in g.outputs || exists j :: i < j < |g.partitions| && y in InputNames(g, g.partitions[j])
  }

  // ----- a forward run by the marks

  /** These are the signatures of the graph's partitions. */
  ghost predicate Signed(g: Graph, skips: seq<bool>, signatures: seq<Signature>) {
    && |signatures| == |skips| == |g.partitions|
    && forall i :: 0 <= i < |skips| ==> SignatureAt(g, skips, i, signatures[i])
  }

  /** The buffers held when partition `i` is about to run: each partition drops the inputs marked as
      deallocated, keeps the others, and adds what it returns. */
  ghost function HeldByMarks(inputs: set<Name>, signatures: seq<Signature>, i: nat): set<Name>
    requires i <= |signatures|
  {
    if i == 0 then inputs else AfterPartition(HeldByMarks(inputs, signatures, i - 1), signatures[i - 1])
  }

  ghost function AfterPartition(held: set<Name>, s: Signature): set<Name> {
    (set x | x in held && !Marked(s, x)) + s.outputNodes
  }

  /** An input that is not freed has a layout. */
  lemma KeptHasLayout(g: Graph, i: nat, x: Name)
    requires WellFormed(g) && i < |g.partitions|
    requires x in InputNames(g, g.partitions[i]) && x !in ToFree(g.partitions[i])
    ensures !IsNone(g, x)
  {
    var y :| y in Touched(g.partitions[i]) && !IsNone(g, y) && x == Real(g, y);
    assert y in g.realName ==> !IsNone(g, g.realName[y]);
  }

  /** The marks are exact: an input is deallocated if and only if it is not returned. */
  lemma MarkedIff(g: Graph, skips: seq<bool>, i: nat, s: Signature, x: Name)
    requires WellFormed(g) && i < |g.partitions| == |skips| && SignatureAt(g, skips, i, s) && x in s.inputNodes
    ensures Marked(s, x) <==> x !in s.outputNodes
  {
    var p := g.partitions[i];
    if x in s.outputNodes {
      ReturnsAreHeld(g, i, x);
    }
    if x !in ToFree(p) {
      KeptHasLayout(g, i, x);
      InputsAreReal(g, i, x);
    }
  }

  /** For this signature, dropping what is marked comes to consuming all inputs and getting some back. */
  ghost predicate SameLoss(s: Signature, held: set<Name>) {
    AfterPartition(held, s) == held - s.inputNodes + s.outputNodes
  }

  lemma LosesSame(g: Graph, skips: seq<bool>, i: nat, s: Signature, held: set<Name>)
    requires WellFormed(g) && i < |g.partitions| == |skips| && SignatureAt(g, skips, i, s)
    ensures SameLoss(s, held)
  {
    forall x | x in held && x !in s.outputNodes ensures Marked(s, x) <==> x in s.inputNodes {
      if x in s.inputNodes {
        MarkedIff(g, skips, i, s, x);
      }
    }
  }

  /** `held` lists what a run holds that consumes every input and adds what is returned. */
  ghost predicate ConsumesAt(signatures: seq<Signature>, held: seq<set<Name>>, j: nat) {
    && j < |signatures| < |held| && SameLoss(signatures[j], held[j])
    && held[j + 1] == held[j] - signatures[j].inputNodes + signatures[j].outputNodes
  }

  lemma {:induction false} SameLossAgrees(signatures: seq<Signature>, held: seq<set<Name>>, i: nat)
    requires i <= |signatures| < |held| && forall j: nat :: j < |signatures| ==> ConsumesAt(signatures, held, j)
    ensures HeldByMarks(held[0], signatures, i) == held[i]
    decreases i
  {
    if i > 0 {
      SameLossAgrees(signatures, held, i - 1);
      assert ConsumesAt(signatures, held, i - 1);
    }
  }

  /** `Held` at every point. */
  ghost function HeldAlong(g: Graph): (held: seq<set<Name>>)
    ensures |held| == |g.partitions| + 1 && held[0] == g.inputs
    ensures forall j :: 0 <= j < |held| ==> held[j] == Held(g, j)
  {
    seq(|g.partitions| + 1, j requires 0 <= j <= |g.partitions| => Held(g, j))
  }

  lemma HeldConsumes(g: Graph, skips: seq<bool>, signatures: seq<Signature>, j: nat)
    requires j < |signatures| == |g.partitions| == |skips| && SignatureAt(g, skips, j, signatures[j])
    requires SameLoss(signatures[j], HeldAlong(g)[j])
    ensures ConsumesAt(signatures, HeldAlong(g), j)
  {
    HeldBySignatures(g, skips, j);
  }

  /** The run by the marks holds what the run that consumes every input holds. */
  lemma MarksAgree(g: Graph, skips: seq<bool>, signatures: seq<Signature>, i: nat)
    requires WellFormed(g) && Signed(g, skips, signatures) && i <= |signatures|
    ensures HeldByMarks(g.inputs, signatures, i) == Held(g, i)
  {
    var held := HeldAlong(g);
    forall j: nat | j < |signatures| ensures ConsumesAt(signatures, held, j) {
      LosesSame(g, skips, j, signatures[j], held[j]);
      HeldConsumes(g, skips, signatures, j);
    }
    SameLossAgrees(signatures, held, i);
  }

  /** So a run that trusts the marks lacks nothing either. */
  lemma MarkedRunServes(g: Graph, skips: seq<bool>, signatures: seq<Signature>, i: nat, x: Name)
    requires WellFormed(g) && Signed(g, skips, signatures) && i < |signatures| && x in signatures[i].inputNodes
    ensures IsNone(g, x) || x in HeldByMarks(g.inputs, signatures, i)
  {
    assert SignatureAt(g, skips, i, signatures[i]);
    MarksAgree(g, skips, signatures, i);
    if !IsNone(g, x) {
      InputsPresent(g, i, x);
    }
  }

  lemma MarkedRunReturns(g: Graph, skips: seq<bool>, signatures: seq<Signature>, o: Name)
    requires WellFormed(g) && Signed(g, skips, signatures) && o in g.outputs && o in g.names && !IsNone(g, Real(g, o))
    ensures Real(g, o) in HeldByMarks(g.inputs, signatures, |signatures|)
  {
    MarksAgree(g, skips, signatures, |signatures|);
    OutputsPresent(g, o);
  }

  /** A deallocated buffer is finished with: no later partition takes it and no graph output is in it. */
  lemma MarkedIsDone(g: Graph, skips: seq<bool>, signatures: seq<Signature>, i: nat, x: Name)
    requires WellFormed(g) && Signed(g, skips, signatures) && i < |signatures| && Marked(signatures[i], x)
    ensures forall j :: i < j < |signatures| ==> x !in signatures[j].inputNodes
    ensures forall o :: o in g.outputs ==> Real(g, o) != x
  {
    assert SignatureAt(g, skips, i, signatures[i]) && LastUseRight(g, i, x);
    forall j | i < j < |signatures| ensures x !in signatures[j].inputNodes {
      assert SignatureAt(g, skips, j, signatures[j]) && x !in InputNames(g, g.partitions[j]);
    }
  }

  /** Every buffer that is freed outside the partition that produced it is deallocated once, and there. */
  lemma FreedIsMarkedOnce(g: Graph, skips: seq<bool>, signatures: seq<Signature>, i: nat, x: Name)
    requires WellFormed(g) && Signed(g, skips, signatures) && i < |signatures| && x in g.names
    requires LastUsedHere(g.partitions[i], x) && !ProducedHere(g.partitions[i], x)
    ensures Marked(signatures[i], x)
    ensures forall j :: 0 <= j < |signatures| && Marked(signatures[j], x) ==> j == i
  {
    assert SignatureAt(g, skips, i, signatures[i]);
    assert x in ToFree(g.partitions[i]) && x in InputNames(g, g.partitions[i]);
    forall j | 0 <= j < |signatures| && Marked(signatures[j], x) ensures j == i {
      assert SignatureAt(g, skips, j, signatures[j]);
      assert x in signatures[i].inputNodes && x in signatures[j].inputNodes;
      if j < i {
        MarkedIsDone(g, skips, signatures, j, x);
      } else if i < j {
        MarkedIsDone(g, skips, signatures, i, x);
      }
    }
  }

  /** Input `x` of partition `i` is there when the partition runs, and is deallocated or returned. */
  ghost predicate ServedAt(g: Graph, signatures: seq<Signature>, i: nat, x: Name)
    requires i < |signatures|
  {
    x in signatures[i].inputNodes ==>
      && (Marked(signatures[i], x) <==> x !in signatures[i].outputNodes)
      && (IsNone(g, x) || x in HeldByMarks(g.inputs, signatures, i))
  }

  lemma SignedServes(g: Graph, skips: seq<bool>, signatures: seq<Signature>, i: nat, x: Name)
    requires WellFormed(g) && Signed(g, skips, signatures) && i < |signatures|
    ensures ServedAt(g, signatures, i, x)
  {
    if x in signatures[i].inputNodes {
      MarkedIff(g, skips, i, signatures[i], x);
      MarkedRunServes(g, skips, signatures, i, x);
    }
  }

  /** For a well-formed graph `get_graph_partition_signature` returns, and a run by the marks is served. */
  method SignaturesServe(g: Graph, skips: seq<bool>) returns (signatures: seq<Signature>)
    requires WellFormed(g) && |skips| == |g.partitions|
    ensures Signed(g, skips, signatures)
    ensures forall i, x :: 0 <= i < |signatures| ==> ServedAt(g, signatures, i, x)
  {
    var r := PartitionSignatures(g, skips);
    AlwaysComplete(g, skips);
    signatures := r.value;
    forall i, x | 0 <= i < |signatures| ensures ServedAt(g, signatures, i, x) {
      SignedServes(g, skips, signatures, i, x);
    }
  }

  lemma AlwaysComplete(g: Graph, skips: seq<bool>)
    requires WellFormed(g) && |skips| == |g.partitions|
    ensures forall i :: 0 <= i < |skips| ==> CompleteAt(g, skips, i)
  {
    forall i | 0 <= i < |skips| ensures CompleteAt(g, skips, i) {
      NothingMissing(g, skips, i);
    }
  }

  // ----- buffers without a layout

  /** Following renamings leads down. */
  ghost predicate Descends(g: Graph, rank: Name -> nat) {
    forall n :: n in g.realName ==> rank(g.realName[n]) < rank(n)
  }

  /** Where renamings do not go round in circles, the layout test is the recursion of the original: an
      unallocated mutation output is what the buffer it mutates is. */
  lemma IsNoneIff(g: Graph, n: Name, rank: Name -> nat)
    requires Descends(g, rank)
    ensures IsNone(g, n) <==>
            && n in g.buffers && g.buffers[n].noneLayout
            && (g.buffers[n].mutationOutput && n in g.realName && g.realName[n] != "" ==> IsNone(g, g.realName[n]))
  {
    if n in g.realName {
      PendingEnough(g, g.realName[n], g.realName.Keys - {n}, rank);
    }
  }

  /** Renamings that are not below `n` do not matter. */
  lemma {:induction false} PendingEnough(g: Graph, n: Name, pending: set<Name>, rank: Name -> nat)
    requires Descends(g, rank) && forall x :: x in g.realName && rank(x) <= rank(n) ==> x in pending
    ensures IsNoneFrom(g, n, pending) == IsNone(g, n)
    decreases rank(n)
  {
    if n in g.realName {
      PendingEnough(g, g.realName[n], pending - {n}, rank);
      PendingEnough(g, g.realName[n], g.realName.Keys - {n}, rank);
    }
  }
}
