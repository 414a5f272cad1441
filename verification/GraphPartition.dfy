/** Signatures of graph partitions: a backward pass decides what each partition takes and returns,
    and a forward run must then never lack a buffer. */
module GraphPartition {

  type Name = string

  datatype Buffer = Buffer(noneLayout: bool, mutationOutput: bool)

  datatype Node = Node(outputs: set<Name>, readNames: set<Name>, writtenNames: set<Name>, lastUsage: set<Name>)

  /** `names` are the graph inputs and the outputs of all nodes; `realName` maps a mutation output to
      the buffer it mutates. */
  datatype Graph = Graph(
    names: set<Name>, inputs: set<Name>, outputs: set<Name>, constants: set<Name>,
    buffers: map<Name, Buffer>, realName: map<Name, Name>, partitions: seq<seq<Node>>)

  datatype Signature = Signature(
    inputNodes: set<Name>, outputNodes: set<Name>, inputDeallocation: map<Name, bool>,
    skipCudagraph: bool, constantNames: set<Name>)

  /** One backward step; `missing` are the returned names for which the node lookup fails. */
  datatype Step = Step(signature: Signature, unmet: set<Name>, missing: set<Name>)

  datatype Result = Signatures(value: seq<Signature>) | LookupError

  function Real(g: Graph, n: Name): Name {
    if n in g.realName then g.realName[n] else n
  }

  /** `is_none_layout`. `pending` are the renamings not followed yet, so a cycle of renamings, which
      the original would follow forever, ends here. */
  function IsNoneFrom(g: Graph, n: Name, pending: set<Name>): bool
    decreases pending
  {
    if n !in g.buffers || !g.buffers[n].noneLayout then false
    else if g.buffers[n].mutationOutput && n in g.realName && g.realName[n] != "" && n in pending then
      IsNoneFrom(g, g.realName[n], pending - {n})
    else true
  }

  function IsNone(g: Graph, n: Name): bool {
    IsNoneFrom(g, n, g.realName.Keys)
  }

  // ----- one partition

  function Outputs(p: seq<Node>): set<Name> {
    set i, x | 0 <= i < |p| && x in p[i].outputs :: x
  }

  function Touched(p: seq<Node>): set<Name> {
    set i, x | 0 <= i < |p| && x in p[i].readNames + p[i].writtenNames :: x
  }

  function ToFree(p: seq<Node>): set<Name> {
    set i, x | 0 <= i < |p| && x in p[i].lastUsage :: x
  }

  /** Names read or written but not produced here, under their real names, and buffers of earlier
      partitions that are last used here. */
  function InputNames(g: Graph, p: seq<Node>): set<Name> {
    (set x | x in Touched(p) && !IsNone(g, x) && x !in Outputs(p) :: Real(g, x))
    + (set x | x in ToFree(p) && x !in Outputs(p) && x in g.names)
  }

  /** What the partition returns: produced names somebody still needs and inputs it does not free. */
  function ReturnedNames(g: Graph, p: seq<Node>, unmet: set<Name>): set<Name> {
    set x | x in (Outputs(p) * unmet) + (set y | y in InputNames(g, p) && y in g.names && y !in ToFree(p)) :: Real(g, x)
  }

  function BackwardStep(g: Graph, p: seq<Node>, skip: bool, unmet: set<Name>): Step {
    var inputs := InputNames(g, p);
    var returned := ReturnedNames(g, p, unmet);
    Step(Signature(inputs * g.names,
                   set x | x in returned && !IsNone(g, x) && x in g.names,
                   map x | x in inputs && x in g.names :: x in ToFree(p),
                   skip,
                   inputs * g.constants),
         inputs + (unmet - returned),
         set x | x in returned && !IsNone(g, x) && x !in g.names)
  }

  // ----- the backward pass

  /** What is still needed when partition `i` is about to run. */
  function Unmet(g: Graph, i: nat): set<Name>
    requires i <= |g.partitions|
    decreases |g.partitions| - i
  {
    if i == |g.partitions| then g.outputs
    else
      var p := g.partitions[i];
      InputNames(g, p) + (Unmet(g, i + 1) - ReturnedNames(g, p, Unmet(g, i + 1)))
  }

  function StepAt(g: Graph, skips: seq<bool>, i: nat): Step
    requires i < |g.partitions| == |skips|
  {
    BackwardStep(g, g.partitions[i], skips[i], Unmet(g, i + 1))
  }

  /** Partition `i` has this signature. */
  predicate SignatureAt(g: Graph, skips: seq<bool>, i: nat, signature: Signature)
    requires i < |g.partitions| == |skips|
  {
    StepAt(g, skips, i).signature == signature
  }

  /** Every name partition `i` returns has a node. */
  predicate CompleteAt(g: Graph, skips: seq<bool>, i: nat)
    requires i < |g.partitions| == |skips|
  {
    StepAt(g, skips, i).missing == {}
  }

  /** The signatures of the last partitions, last first. */
  predicate Collected(g: Graph, skips: seq<bool>, signatures: seq<Signature>)
    requires |g.partitions| == |skips|
  {
    |signatures| <= |skips|
    && forall j :: 0 <= j < |signatures| ==> CollectedAt(g, skips, j, signatures[j])
  }

  predicate CollectedAt(g: Graph, skips: seq<bool>, j: nat, signature: Signature)
    requires j < |skips| == |g.partitions|
  {
    var i := |skips| - 1 - j;
    CompleteAt(g, skips, i) && SignatureAt(g, skips, i, signature)
  }

  lemma CollectOne(g: Graph, skips: seq<bool>, signatures: seq<Signature>, signature: Signature)
    requires |signatures| < |skips| == |g.partitions| && Collected(g, skips, signatures)
    requires CollectedAt(g, skips, |signatures|, signature)
    ensures Collected(g, skips, signatures + [signature])
  {
    var more := signatures + [signature];
    forall j | 0 <= j < |more| ensures CollectedAt(g, skips, j, more[j]) {
      assert more[j] == if j < |signatures| then signatures[j] else signature;
    }
  }

  /** `get_graph_partition_signature`: the reverse loop over the partitions. It fails exactly when a
      returned name has no node, and otherwise gives the signature of every partition. */
  method PartitionSignatures(g: Graph, skips: seq<bool>) returns (r: Result)
    requires |skips| == |g.partitions|
    ensures r.Signatures? <==> forall i :: 0 <= i < |skips| ==> CompleteAt(g, skips, i)
    ensures r.Signatures? ==>
              |r.value| == |skips| && forall i :: 0 <= i < |skips| ==> SignatureAt(g, skips, i, r.value[i])
    ensures r.Signatures? ==> forall i :: 0 <= i < |skips| ==> r.value[i].skipCudagraph == skips[i]
  {
    var signatures := [];
    var unmet := g.outputs;
    var i := |skips|;
    while i > 0
      invariant 0 <= i <= |skips| && |signatures| == |skips| - i && unmet == Unmet(g, i)
      invariant Collected(g, skips, signatures)
    {
      i := i - 1;
      var signature, rest, complete := OneStep(g, skips, i, unmet);
      if !complete {
        return LookupError;
      }
      CollectOne(g, skips, signatures, signature);
      signatures := signatures + [signature];
      unmet := rest;
    }
    r := Signatures(Reversed(signatures));
    CollectedAll(g, skips, signatures);
  }

  function Reversed(signatures: seq<Signature>): (r: seq<Signature>)
    ensures |r| == |signatures| && forall i :: 0 <= i < |r| ==> r[i] == signatures[|r| - 1 - i]
  {
    seq(|signatures|, i requires 0 <= i < |signatures| => signatures[|signatures| - 1 - i])
  }

  lemma CollectedAll(g: Graph, skips: seq<bool>, signatures: seq<Signature>)
    requires |signatures| == |skips| == |g.partitions| && Collected(g, skips, signatures)
    ensures forall i :: 0 <= i < |skips| ==> CompleteAt(g, skips, i)
    ensures forall i :: 0 <= i < |skips| ==> SignatureAt(g, skips, i, Reversed(signatures)[i])
  {
    forall i | 0 <= i < |skips|
      ensures CompleteAt(g, skips, i) && SignatureAt(g, skips, i, Reversed(signatures)[i])
    {
      var j := |skips| - 1 - i;
      assert CollectedAt(g, skips, j, signatures[j]);
    }
  }

  method OneStep(g: Graph, skips: seq<bool>, i: nat, unmet: set<Name>)
    returns (signature: Signature, rest: set<Name>, complete: bool)
    requires i < |g.partitions| == |skips| && unmet == Unmet(g, i + 1)
    ensures SignatureAt(g, skips, i, signature) && rest == Unmet(g, i) && complete == CompleteAt(g, skips, i)
  {
    var step := BackwardStep(g, g.partitions[i], skips[i], unmet);
    signature, rest, complete := step.signature, step.unmet, step.missing == {};
  }

  // ----- a forward run

  /** The buffers held when partition `i` is about to run: each partition consumes all its inputs and
      gives back only what its signature returns. */
  function Held(g: Graph, i: nat): set<Name>
    requires i <= |g.partitions|
  {
    if i == 0 then g.inputs
    else
      var p := g.partitions[i - 1];
      Held(g, i - 1) - InputNames(g, p) * g.names
      + (set x | x in ReturnedNames(g, p, Unmet(g, i)) && !IsNone(g, x) && x in g.names)
  }

  /** `Held` really is the signatures at work. */
  lemma HeldBySignatures(g: Graph, skips: seq<bool>, i: nat)
    requires i < |g.partitions| == |skips|
    ensures Held(g, i + 1) ==
            Held(g, i) - StepAt(g, skips, i).signature.inputNodes + StepAt(g, skips, i).signature.outputNodes
  {
  }

  // ----- what the graph must satisfy

  ghost predicate Born(g: Graph, n: Name, i: nat)
    requires i <= |g.partitions|
  {
    n in g.inputs || exists j :: 0 <= j < i && n in Outputs(g.partitions[j])
  }

  /** Renamings are settled in one step: a real name is not renamed to yet another. */
  ghost predicate Settled(names: map<Name, Name>) {
    forall n :: n in names && names[n] in names ==> names[names[n]] == names[n]
  }

  ghost predicate NamesClosed(g: Graph) {
    && (forall n :: n in g.inputs ==> n in g.names && Real(g, n) == n)
    && (forall n :: n in g.names ==> Real(g, n) in g.names && Born(g, n, |g.partitions|))
    && (forall i, n :: 0 <= i < |g.partitions| && n in Outputs(g.partitions[i]) ==> n in g.names)
    && (forall n :: n in g.realName && !IsNone(g, n) ==> !IsNone(g, g.realName[n]))
  }

  /** Buffers exist before the partitions that take them. */
  ghost predicate Ordered(g: Graph) {
    forall i, n :: 0 <= i < |g.partitions| && n in InputNames(g, g.partitions[i]) && n in g.names ==> Born(g, n, i)
  }

  /** Last usage is right: it names real buffers, and no later partition and no graph output needs
      them. */
  ghost predicate LastUsesRight(g: Graph) {
    forall i, n :: 0 <= i < |g.partitions| ==> LastUseRight(g, i, n)
  }

  /** If partition `i` frees `n`, that is a real buffer, and no later partition and no output needs it. */
  ghost predicate LastUseRight(g: Graph, i: nat, n: Name)
    requires i < |g.partitions|
  {
    n in ToFree(g.partitions[i]) ==>
      && Real(g, n) == n
      && (forall j :: i < j < |g.partitions| ==> n !in InputNames(g, g.partitions[j]))
      && (forall o :: o in g.outputs ==> Real(g, o) != n)
  }

  /** A partition that produces a mutation output holds the buffer it mutates. */
  ghost predicate MutationsHeld(g: Graph) {
    forall i, n :: 0 <= i < |g.partitions| && n in Outputs(g.partitions[i]) && n in g.realName ==>
      Real(g, n) in Outputs(g.partitions[i]) || Real(g, n) in InputNames(g, g.partitions[i])
  }

  /** Everything but the renamings is as it should be. */
  ghost predicate Scheduled(g: Graph) {
    NamesClosed(g) && Ordered(g) && LastUsesRight(g) && MutationsHeld(g)
  }

  ghost predicate WellFormed(g: Graph) {
    Settled(g.realName) && Scheduled(g)
  }

  // ----- lemmas

  lemma RealIsReal(g: Graph, n: Name)
    requires Settled(g.realName)
    ensures Real(g, Real(g, n)) == Real(g, n)
  {
  }

  /** Partition inputs are real names. */
  lemma InputsAreReal(g: Graph, i: nat, n: Name)
    requires WellFormed(g) && i < |g.partitions| && n in InputNames(g, g.partitions[i])
    ensures Real(g, n) == n
  {
    assert LastUseRight(g, i, n);
    if n !in ToFree(g.partitions[i]) {
      var x :| x in Touched(g.partitions[i]) && n == Real(g, x);
      RealIsReal(g, x);
    }
  }

  /** What is unmet is a graph output or an input of a later partition. */
  lemma {:induction false} UnmetSource(g: Graph, i: nat, n: Name)
    requires i <= |g.partitions| && n in Unmet(g, i)
    ensures n in g.outputs || exists j :: i <= j < |g.partitions| && n in InputNames(g, g.partitions[j])
    decreases |g.partitions| - i
  {
    if i < |g.partitions| && n !in InputNames(g, g.partitions[i]) {
      UnmetSource(g, i + 1, n);
    }
  }

  /** A buffer freed by partition `i` is not the real buffer of anything needed afterwards. */
  lemma FreedIsNotNeeded(g: Graph, i: nat, n: Name)
    requires WellFormed(g) && i < |g.partitions| && n in Unmet(g, i + 1)
    ensures Real(g, n) !in ToFree(g.partitions[i])
  {
    UnmetSource(g, i + 1, n);
    assert LastUseRight(g, i, Real(g, n));
    if n in g.outputs {
      FreedIsNoOutput(g, i, n);
    } else {
      var j :| i + 1 <= j < |g.partitions| && n in InputNames(g, g.partitions[j]);
      InputsAreReal(g, j, n);
      FreedIsNoInput(g, i, n, j);
    }
  }

  lemma FreedIsNoOutput(g: Graph, i: nat, o: Name)
    requires i < |g.partitions| && o in g.outputs && LastUseRight(g, i, Real(g, o))
    ensures Real(g, o) !in ToFree(g.partitions[i])
  {
  }

  lemma FreedIsNoInput(g: Graph, i: nat, n: Name, j: nat)
    requires i < j < |g.partitions| && n in InputNames(g, g.partitions[j]) && LastUseRight(g, i, n)
    ensures n !in ToFree(g.partitions[i])
  {
  }

  /** The invariant of a forward run: whatever is needed, exists by now and is allocated, is held. */
  ghost predicate NeedsHeld(g: Graph, i: nat)
    requires i <= |g.partitions|
  {
    forall n :: NeedHeld(g, i, n)
  }

  ghost predicate NeedHeld(g: Graph, i: nat, n: Name)
    requires i <= |g.partitions|
  {
    n in Unmet(g, i) && n in g.names && Born(g, n, i) && !IsNone(g, Real(g, n)) ==> Real(g, n) in Held(g, i)
  }

  /** Something needed later whose real buffer this partition does not return was needed before. */
  lemma StillUnmet(g: Graph, i: nat, n: Name)
    requires Settled(g.realName) && i < |g.partitions| && n in Unmet(g, i + 1)
    requires Real(g, n) !in ReturnedNames(g, g.partitions[i], Unmet(g, i + 1))
    ensures n !in Outputs(g.partitions[i]) && n in Unmet(g, i)
  {
    var p, unmet := g.partitions[i], Unmet(g, i + 1);
    assert n in Outputs(p) ==> n in Outputs(p) * unmet;
    if n in ReturnedNames(g, p, unmet) {
      ReturnedAreReal(g, p, unmet, n);
    }
  }

  /** An input that is not freed is returned. */
  lemma UnreturnedIsUntaken(g: Graph, p: seq<Node>, unmet: set<Name>, m: Name)
    requires m !in ReturnedNames(g, p, unmet) && m in g.names && m !in ToFree(p) && Real(g, m) == m
    ensures m !in InputNames(g, p)
  {
  }

  lemma HeldIfReturned(g: Graph, i: nat, m: Name)
    requires i < |g.partitions| && m in ReturnedNames(g, g.partitions[i], Unmet(g, i + 1))
    requires !IsNone(g, m) && m in g.names
    ensures m in Held(g, i + 1)
  {
  }

  lemma HeldIfUntaken(g: Graph, i: nat, m: Name)
    requires i < |g.partitions| && m in Held(g, i) && m !in InputNames(g, g.partitions[i])
    ensures m in Held(g, i + 1)
  {
  }

  lemma NeedHeldNext(g: Graph, i: nat, n: Name, m: Name)
    requires Settled(g.realName) && i < |g.partitions| && NeedsHeld(g, i)
    requires n in Unmet(g, i + 1) && n in g.names && Born(g, n, i + 1)
    requires m == Real(g, n) && m in g.names && !IsNone(g, m) && m !in ToFree(g.partitions[i])
    ensures m in Held(g, i + 1)
  {
    RealIsReal(g, n);
    if m in ReturnedNames(g, g.partitions[i], Unmet(g, i + 1)) {
      HeldIfReturned(g, i, m);
    } else {
      StillUnmet(g, i, n);
      BornEarlier(g, i, n);
      HeldBefore(g, i, n);
      UnreturnedIsUntaken(g, g.partitions[i], Unmet(g, i + 1), m);
      HeldIfUntaken(g, i, m);
    }
  }

  lemma HeldBefore(g: Graph, i: nat, n: Name)
    requires i <= |g.partitions| && NeedsHeld(g, i) && n in Unmet(g, i)
    requires n in g.names && Born(g, n, i) && !IsNone(g, Real(g, n))
    ensures Real(g, n) in Held(g, i)
  {
    assert NeedHeld(g, i, n);
  }

  lemma BornEarlier(g: Graph, i: nat, n: Name)
    requires i < |g.partitions| && Born(g, n, i + 1) && n !in Outputs(g.partitions[i])
    ensures Born(g, n, i)
  {
    if n !in g.inputs {
      var j :| 0 <= j < i + 1 && n in Outputs(g.partitions[j]);
      assert j < i;
    }
  }

  lemma ReturnedAreReal(g: Graph, p: seq<Node>, unmet: set<Name>, n: Name)
    requires Settled(g.realName) && n in ReturnedNames(g, p, unmet)
    ensures Real(g, n) == n
  {
    var x :| n == Real(g, x);
    RealIsReal(g, x);
  }

  lemma {:induction false} NeedsAlwaysHeld(g: Graph, i: nat)
    requires WellFormed(g) && i <= |g.partitions|
    ensures NeedsHeld(g, i)
    decreases i
  {
    if i > 0 {
      NeedsAlwaysHeld(g, i - 1);
      NeedsNext(g, i - 1);
    } else {
      NeedsAtStart(g);
    }
  }

  lemma NeedsAtStart(g: Graph)
    requires WellFormed(g)
    ensures NeedsHeld(g, 0)
  {
    forall n ensures NeedHeld(g, 0, n) {
      NeedAtStart(g, n);
    }
  }

  lemma NeedsNext(g: Graph, i: nat)
    requires WellFormed(g) && i < |g.partitions| && NeedsHeld(g, i)
    ensures NeedsHeld(g, i + 1)
  {
    var j := i + 1;
    forall n ensures NeedHeld(g, j, n) {
      NeedStep(g, i, n);
    }
  }

  lemma NeedAtStart(g: Graph, n: Name)
    requires WellFormed(g)
    ensures NeedHeld(g, 0, n)
  {
  }

  lemma NeedStep(g: Graph, i: nat, n: Name)
    requires WellFormed(g) && i < |g.partitions| && NeedsHeld(g, i)
    ensures NeedHeld(g, i + 1, n)
  {
    if n in Unmet(g, i + 1) && n in g.names && Born(g, n, i + 1) && !IsNone(g, Real(g, n)) {
      FreedIsNotNeeded(g, i, n);
      NeedHeldNext(g, i, n, Real(g, n));
    }
  }

  // ----- main results

  /** Every allocated input of a partition is held when the partition runs. */
  lemma InputsPresent(g: Graph, i: nat, n: Name)
    requires WellFormed(g) && i < |g.partitions|
    requires n in InputNames(g, g.partitions[i]) && n in g.names && !IsNone(g, n)
    ensures n in Held(g, i)
  {
    NeedsAlwaysHeld(g, i);
    InputsAreReal(g, i, n);
    assert n in Unmet(g, i) && Born(g, n, i) && NeedHeld(g, i, n);
  }

  /** Every allocated buffer a partition reads or writes is produced inside it or held when it runs. */
  lemma ReadsPresent(g: Graph, i: nat, x: Name)
    requires WellFormed(g) && i < |g.partitions|
    requires x in Touched(g.partitions[i]) && x in g.names && !IsNone(g, x)
    ensures x in Outputs(g.partitions[i]) || Real(g, x) in Held(g, i)
  {
    if x !in Outputs(g.partitions[i]) {
      assert Real(g, x) in InputNames(g, g.partitions[i]);
      InputsPresent(g, i, Real(g, x));
    }
  }

  /** Every allocated graph output is held at the end. */
  lemma OutputsPresent(g: Graph, o: Name)
    requires WellFormed(g) && o in g.outputs && o in g.names && !IsNone(g, Real(g, o))
    ensures Real(g, o) in Held(g, |g.partitions|)
  {
    NeedsAlwaysHeld(g, |g.partitions|);
    assert Born(g, o, |g.partitions|) && NeedHeld(g, |g.partitions|, o);
  }

  /** A partition returns only buffers it was given or produced, none of which it frees, and every
      returned name has a node. */
  lemma ReturnsAreHeld(g: Graph, i: nat, m: Name)
    requires WellFormed(g) && i < |g.partitions| && m in ReturnedNames(g, g.partitions[i], Unmet(g, i + 1))
    ensures m in g.names && m !in ToFree(g.partitions[i])
    ensures m in InputNames(g, g.partitions[i]) || m in Outputs(g.partitions[i])
  {
    var p, unmet := g.partitions[i], Unmet(g, i + 1);
    var kept := set y | y in InputNames(g, p) && y in g.names && y !in ToFree(p);
    var x :| x in (Outputs(p) * unmet) + kept && m == Real(g, x);
    if x in Outputs(p) * unmet {
      FreedIsNotNeeded(g, i, x);
    } else {
      InputsAreReal(g, i, x);
    }
  }

  /** Hence the pass always produces signatures. */
  lemma NothingMissing(g: Graph, skips: seq<bool>, i: nat)
    requires WellFormed(g) && i < |g.partitions| == |skips|
    ensures StepAt(g, skips, i).missing == {}
  {
    forall m | m in StepAt(g, skips, i).missing ensures false {
      ReturnsAreHeld(g, i, m);
    }
  }

  // ----- where the assumptions bite

  /** Buffers without a layout are kept out of the inputs that are read, but not out of the inputs
      that are only freed: a partition takes one exactly when it frees one it did not produce. */
  lemma NoneInputIff(g: Graph, i: nat)
    requires WellFormed(g) && i < |g.partitions|
    ensures (exists n :: n in InputNames(g, g.partitions[i]) && n in g.names && IsNone(g, n))
       <==> (exists n :: n in ToFree(g.partitions[i]) && n !in Outputs(g.partitions[i]) && n in g.names && IsNone(g, n))
  {
    var p := g.partitions[i];
    if n :| n in InputNames(g, p) && n in g.names && IsNone(g, n) {
      assert n in ToFree(p);
    }
    if n :| n in ToFree(p) && n !in Outputs(p) && n in g.names && IsNone(g, n) {
      assert n in InputNames(g, p);
    }
  }

  /** A forward run lacks nothing: every allocated input is held when its partition runs, and every
      allocated graph output at the end. */
  ghost predicate Served(g: Graph) {
    && (forall i, n ::
          0 <= i < |g.partitions| && n in InputNames(g, g.partitions[i]) && n in g.names && !IsNone(g, n) ==>
            n in Held(g, i))
    && (forall o :: o in g.outputs && o in g.names && !IsNone(g, Real(g, o)) ==> Real(g, o) in Held(g, |g.partitions|))
  }

  lemma WellFormedServed(g: Graph)
    requires WellFormed(g)
    ensures Served(g)
  {
    forall i, n | 0 <= i < |g.partitions| && n in InputNames(g, g.partitions[i]) && n in g.names && !IsNone(g, n)
      ensures n in Held(g, i)
    {
      InputsPresent(g, i, n);
    }
    forall o | o in g.outputs && o in g.names && !IsNone(g, Real(g, o)) ensures Real(g, o) in Held(g, |g.partitions|) {
      OutputsPresent(g, o);
    }
  }

  /** One partition produces every name of the renamings, the next reads `n`. */
  function ChainedGraph(names: map<Name, Name>, n: Name): Graph {
    var all := names.Keys + names.Values;
    Graph(all, {}, {}, {}, map[], names, [[Node(all, {}, {}, {})], [Node({}, {n}, {}, {})]])
  }

  /** What matters of such a graph. */
  ghost predicate Chained(g: Graph, n: Name) {
    && g.inputs == {} && g.outputs == {} && g.buffers == map[] && |g.partitions| == 2
    && n in g.realName && g.names == g.realName.Keys + g.realName.Values
    && Outputs(g.partitions[0]) == g.names && ToFree(g.partitions[0]) == {} && ToFree(g.partitions[1]) == {}
    && Outputs(g.partitions[1]) == {}
    && InputNames(g, g.partitions[0]) == {} && InputNames(g, g.partitions[1]) == {g.realName[n]}
  }

  lemma ChainedGraphIs(names: map<Name, Name>, n: Name)
    requires n in names
    ensures Chained(ChainedGraph(names, n), n)
  {
    var g := ChainedGraph(names, n);
    var p, q := g.partitions[0], g.partitions[1];
    assert p[0].outputs == names.Keys + names.Values && q[0].readNames + q[0].writtenNames == {n};
    assert p[0].readNames + p[0].writtenNames == {} && p[0].lastUsage == {};
    assert q[0].lastUsage == {} && q[0].outputs == {};
    assert Touched(p) == {} && Touched(q) == {n};
  }

  lemma ChainedNames(g: Graph, n: Name)
    requires Chained(g, n)
    ensures NamesClosed(g)
  {
    forall x | x in g.names ensures Real(g, x) in g.names && Born(g, x, 2) {
      assert x in Outputs(g.partitions[0]);
    }
  }

  lemma ChainedOrdered(g: Graph, n: Name)
    requires Chained(g, n)
    ensures Ordered(g)
  {
    assert g.realName[n] in g.names && g.realName[n] in Outputs(g.partitions[0]);
    assert Born(g, g.realName[n], 1);
  }

  lemma ChainedIsScheduled(g: Graph, n: Name)
    requires Chained(g, n)
    ensures Scheduled(g)
  {
    ChainedNames(g, n);
    ChainedOrdered(g, n);
    ChainedLastUses(g, n);
    ChainedMutations(g, n);
  }

  lemma ChainedLastUses(g: Graph, n: Name)
    requires Chained(g, n)
    ensures LastUsesRight(g)
  {
    forall i | 0 <= i < |g.partitions| ensures ToFree(g.partitions[i]) == {} {
      assert i == 0 || i == 1;
    }
  }

  lemma ChainedMutations(g: Graph, n: Name)
    requires Chained(g, n)
    ensures MutationsHeld(g)
  {
    forall i, x | 0 <= i < |g.partitions| && x in Outputs(g.partitions[i]) && x in g.realName
      ensures Real(g, x) in Outputs(g.partitions[i])
    {
      assert i == 0 || i == 1;
      assert g.realName[x] in g.realName.Values;
    }
  }

  lemma ChainedUnmet(g: Graph, n: Name)
    requires Chained(g, n)
    ensures Unmet(g, 1) == {g.realName[n]}
  {
    var p, q := g.partitions[0], g.partitions[1];
    assert Unmet(g, 2) == {};
    assert Unmet(g, 1) == InputNames(g, q) + ({} - ReturnedNames(g, q, {}));
  }

  lemma ChainedHeld(g: Graph, n: Name)
    requires Chained(g, n)
    ensures Held(g, 1) <= {Real(g, g.realName[n])}
  {
    var p, m := g.partitions[0], g.realName[n];
    ChainedUnmet(g, n);
    assert ReturnedNames(g, p, {m}) <= {Real(g, m)};
    assert Held(g, 0) == {};
    assert Held(g, 1) ==
           {} - InputNames(g, p) * g.names + (set x | x in ReturnedNames(g, p, {m}) && !IsNone(g, x) && x in g.names);
  }

  /** If the real name of `n` is renamed in turn, the second partition takes a buffer that the first
      one gave back under another name. */
  lemma ChainLosesBuffer(names: map<Name, Name>, n: Name)
    requires n in names && names[n] in names && names[names[n]] != names[n]
    ensures var g, m := ChainedGraph(names, n), names[n];
            && Scheduled(g) && !Served(g)
            && m in InputNames(g, g.partitions[1]) && m in g.names && !IsNone(g, m) && m !in Held(g, 1)
  {
    var g, m := ChainedGraph(names, n), names[n];
    ChainedGraphIs(names, n);
    ChainedIsScheduled(g, n);
    ChainedHeld(g, n);
    assert m in InputNames(g, g.partitions[1]) && !IsNone(g, m);
  }

  /** A map of renamings is safe for every graph that is otherwise well-formed if and only if it is
      settled in one step. */
  lemma SafeRenamingIff(names: map<Name, Name>)
    ensures (forall g: Graph :: g.realName == names && Scheduled(g) ==> Served(g)) <==> Settled(names)
  {
    if Settled(names) {
      forall g: Graph | g.realName == names && Scheduled(g) ensures Served(g) {
        WellFormedServed(g);
      }
    } else {
      var n :| n in names && names[n] in names && names[names[n]] != names[n];
      ChainLosesBuffer(names, n);
      assert ChainedGraph(names, n).realName == names;
    }
  }

  /** Two mutations of "a" in a row, the second renamed to the output of the first. */
  lemma ChainedRenamingLosesBuffer()
    ensures var g := ChainedGraph(map["c" := "b", "b" := "a"], "c");
            Scheduled(g) && "b" in InputNames(g, g.partitions[1]) && "b" !in Held(g, 1)
  {
    assert "a"[0] != "b"[0] && "b"[0] != "c"[0];
    ChainLosesBuffer(map["c" := "b", "b" := "a"], "c");
  }

  /** A buffer without a layout, produced by one partition and last used by the next. */
  function NoneGraph(): Graph {
    var first, second := Node({"e"}, {}, {}, {}), Node({}, {"e"}, {}, {"e"});
    Graph({"e"}, {}, {}, {}, map["e" := Buffer(true, false)], map[], [[first], [second]])
  }

  /** The docstring's promise that such buffers are no partition inputs does not hold. */
  lemma NoneBecomesInput()
    ensures var g := NoneGraph();
            IsNone(g, "e") && "e" in InputNames(g, g.partitions[1]) && "e" !in Held(g, 1)
  {
    var g := NoneGraph();
    assert "e" in g.partitions[1][0].lastUsage && "e" in ToFree(g.partitions[1]);
  }
}
