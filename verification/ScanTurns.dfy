/** Runs without prefix caching exist for every history and every split of it. */
module ScanTurns {
  import opened Wrappers
  import opened ScanKernel
  import opened ScanGrid
  import opened ScanLayout
  import opened ScanUncached
  import opened Sums
  import ScanRuns

  /** Where the state of the request is: with or without cache indices, in which slot, and how the states lie. */
  datatype Place = Place(varlen: bool, indexed: bool, slot: int, states: Layout)

  /** The state of dimension 0 is in the cache; without cache indices row 0 has slot 0. */
  predicate InCache<S>(at: Place, ssm: seq<S>) {
    0 <= CellOf(at.states, at.slot, 0) < |ssm| && (at.indexed || at.slot == 0)
  }

  /** A launch with one row and one dimension. */
  ghost function Single(at: Place, computed: nat, scheduled: nat): Batch {
    Batch(
      at.varlen, 1, 1, 1, if at.varlen then [0, scheduled] else [], scheduled, false, at.indexed,
      if at.indexed then [[at.slot]] else [], at.slot + 1, Some([computed > 0]), 1, [], [], [], [], [])
  }

  /** The tokens next to each other. */
  function FlatLayout(at: Place, n: nat): Layout {
    Layout(if at.varlen then 1 else n, n)
  }

  ghost function KernelFor<S, E, V>(o: ScanRuns.Ops<S, E, V>, part: Part<E, V>, at: Place): (k: Kernel<S, E, V>)
    requires part.computed + part.scheduled <= |part.h|
    ensures k.meta == Single(at, part.computed, part.scheduled) && k.ssmLayout == at.states && !k.hasZ
    ensures k.deltaLayout == k.uLayout == k.bLayout == k.cLayout == FlatLayout(at, part.scheduled)
    ensures ScanRuns.Ops(k.zero, k.step, k.emit) == o
    ensures |k.u| == |k.bs| == |k.cs| == part.scheduled
    ensures forall i :: 0 <= i < part.scheduled ==> k.u[i] == part.h[part.computed + i].u
    ensures forall i :: 0 <= i < part.scheduled ==> k.bs[i] == part.h[part.computed + i].b
    ensures forall i :: 0 <= i < part.scheduled ==> k.cs[i] == part.h[part.computed + i].c
  {
    var flat, n, from := FlatLayout(at, part.scheduled), part.scheduled, part.computed;
    Kernel(
      o.zero, o.step, o.emit, (x, y) => x,
      seq(n, i requires 0 <= i < n => part.h[from + i].u),
      seq(n, i requires 0 <= i < n => part.h[from + i].b),
      seq(n, i requires 0 <= i < n => part.h[from + i].c),
      flat, flat, flat, flat, flat, at.states, false, Single(at, from, n))
  }

  ghost function DeltasOf<E, V>(part: Part<E, V>): (s: seq<E>)
    requires part.computed + part.scheduled <= |part.h|
    ensures |s| == part.scheduled && forall i :: 0 <= i < |s| ==> s[i] == part.h[part.computed + i].delta
  {
    seq(part.scheduled, i requires 0 <= i < part.scheduled => part.h[part.computed + i].delta)
  }

  /** What is needed of such a kernel. */
  ghost predicate IsSingle<S, E, V>(o: ScanRuns.Ops<S, E, V>, k: Kernel<S, E, V>, m: Mem<S, E>, part: Part<E, V>,
                                    at: Place) {
    && Plainly(k.meta) && k.meta.size == 1 && k.meta.dim == 1 && k.meta.ratio == 1
    && k.meta.varlen == at.varlen && SeqLen(k.meta, 0) == part.scheduled
    && (k.meta.varlen ==> k.meta.starts[0] == 0) && !Null(k.meta, 0)
    && OwnSlot(k.meta, 0) == at.slot && (HasInit(k.meta, 0) <==> part.computed > 0)
    && k.ssmLayout == at.states && !k.hasZ && InCache(at, m.ssm)
    && k.deltaLayout == k.uLayout == k.bLayout == k.cLayout == FlatLayout(at, part.scheduled)
    && ScanRuns.Ops(k.zero, k.step, k.emit) == o
    && part.computed + part.scheduled <= |part.h|
    && |k.u| == |k.bs| == |k.cs| == |m.delta| == part.scheduled
    && forall i: nat :: i < part.scheduled ==> SingleToken(k, m, part, i)
  }

  ghost predicate SingleToken<S, E, V>(k: Kernel<S, E, V>, m: Mem<S, E>, part: Part<E, V>, i: nat) {
    && i < |k.u| == |k.bs| == |k.cs| == |m.delta| && part.computed + i < |part.h|
    && part.h[part.computed + i] == Token(k.u[i], m.delta[i], k.bs[i], k.cs[i])
  }

  lemma SingleExists<S, E, V>(o: ScanRuns.Ops<S, E, V>, part: Part<E, V>, at: Place, ssm: seq<S>)
    returns (k: Kernel<S, E, V>, m: Mem<S, E>)
    requires part.computed + part.scheduled <= |part.h| && InCache(at, ssm)
    ensures IsSingle(o, k, m, part, at) && m.ssm == ssm
    ensures k.meta.varlen == at.varlen && k.meta.hasCacheIndices == at.indexed
  {
    k, m := KernelFor(o, part, at), Mem(DeltasOf(part), [], ssm);
    forall i: nat | i < part.scheduled ensures SingleToken(k, m, part, i) {
    }
  }

  lemma SingleFits<S, E, V>(o: ScanRuns.Ops<S, E, V>, k: Kernel<S, E, V>, m: Mem<S, E>, part: Part<E, V>,
                            at: Place)
    requires IsSingle(o, k, m, part, at)
    ensures Fits(k, m, 0, 0) && GridFits(k, m)
  {
    SlotIs(k.meta, 0);
    forall p: Program | InGrid(k.meta, p) ensures Fits(k, m, p.b, p.d) {
      assert p == Program(0, 0);
    }
  }

  lemma SingleThere<S, E, V>(k: Kernel<S, E, V>, m: Mem<S, E>, part: Part<E, V>, pos: nat)
    requires WellFormed(k.meta) && k.meta.size == 1 && k.meta.ratio == 1 && (k.meta.varlen ==> k.meta.starts[0] == 0)
    requires k.deltaLayout == k.uLayout == k.bLayout == k.cLayout && (k.meta.varlen ==> k.uLayout.batch == 1)
    requires SingleToken(k, m, part, pos)
    ensures TokenThere(k, m, 0, 0, part, pos)
  {
    assert TensorAddr(k.meta, k.uLayout, 0, 0, pos) == pos;
    forall g: nat | InGroup(k.meta, 0, g) ensures InTensors(k, m, 0, 0, g, pos, part.h[part.computed + pos]) {
      assert g == 0;
    }
  }

  lemma SingleScheduled<S, E, V>(o: ScanRuns.Ops<S, E, V>, k: Kernel<S, E, V>, m: Mem<S, E>, part: Part<E, V>,
                                 at: Place)
    requires IsSingle(o, k, m, part, at) && Fits(k, m, 0, 0)
    ensures Scheduled(o, k, m, 0, 0, part)
  {
    forall pos: nat | pos < part.scheduled ensures TokenThere(k, m, 0, 0, part, pos) {
      assert SingleToken(k, m, part, pos);
      SingleThere(k, m, part, pos);
    }
  }

  lemma SingleSeparate<S, E, V>(k: Kernel<S, E, V>)
    requires WellFormed(k.meta) && k.meta.size == 1 && k.meta.dim == 1
    ensures Separate(k)
  {
    assert forall p: Program :: InGrid(k.meta, p) ==> p.b == 0 && p.d == 0;
  }

  /** Running the whole grid, in some order, is a launch. */
  lemma LaunchedInOrder<S, E, V>(k: Kernel<S, E, V>, m: Mem<S, E>, order: seq<Program>, scheduled: nat)
    returns (t: Turn<S, E, V>)
    requires GridFits(k, m) && Separate(k) && Schedule(k, order)
    requires forall p: Program :: InGrid(k.meta, p) ==> p in order
    ensures Launched(t) && t == Turn(k, m, t.after, 0, scheduled) && SameShape(m, t.after)
  {
    LaunchIsOutOfPlace(k, m, order);
    t := Turn(k, m, RunAll(k, m, order), 0, scheduled);
    assert LaunchedBy(t, Members(order));
  }

  lemma SingleOrder<S, E, V>(k: Kernel<S, E, V>) returns (order: seq<Program>)
    requires k.meta.size == 1 && k.meta.dim == 1
    ensures Schedule(k, order) && forall p: Program :: InGrid(k.meta, p) ==> p in order
  {
    order := [Program(0, 0)];
    forall p: Program | InGrid(k.meta, p) ensures p in order {
      assert p == order[0];
    }
  }

  ghost predicate Schedules<S, E, V>(turns: seq<Turn<S, E, V>>, lens: seq<nat>) {
    |turns| == |lens| && forall i :: 0 <= i < |lens| ==> turns[i].scheduled == lens[i]
  }

  lemma {:induction false} ComputedIsSum<S, E, V>(turns: seq<Turn<S, E, V>>, lens: seq<nat>, i: nat)
    requires Schedules(turns, lens) && i <= |lens|
    ensures Computed(turns, i) == Sum(lens[..i])
    decreases i
  {
    if i > 0 {
      ComputedIsSum(turns, lens, i - 1);
      assert lens[..i][..i - 1] == lens[..i - 1];
    }
  }

  lemma {:induction false} ComputedPrefix<S, E, V>(turns: seq<Turn<S, E, V>>, t: Turn<S, E, V>, i: nat)
    requires i <= |turns|
    ensures Computed(turns + [t], i) == Computed(turns, i)
    decreases i
  {
    if i > 0 {
      ComputedPrefix(turns, t, i - 1);
    }
  }

  /** A turn of a single-row launch. */
  ghost predicate SingleTurn<S, E, V>(t: Turn<S, E, V>, at: Place) {
    && Plainly(t.k.meta) && t.b == 0 && t.k.meta.size == 1 && t.k.meta.varlen == at.varlen
    && t.k.meta.hasCacheIndices == at.indexed && OwnSlot(t.k.meta, 0) == at.slot
    && t.k.ssmLayout == at.states && InCache(at, t.before.ssm) && |t.before.ssm| == |t.after.ssm|
  }

  lemma NextTurn<S, E, V>(o: ScanRuns.Ops<S, E, V>, part: Part<E, V>, at: Place, ssm: seq<S>)
    returns (t: Turn<S, E, V>)
    requires part.computed + part.scheduled <= |part.h| && InCache(at, ssm)
    ensures SingleTurn(t, at) && t.scheduled == part.scheduled && t.before.ssm == ssm
    ensures TurnFrom(o, 0, part.h, part.computed, t)
  {
    var k, m := SingleExists(o, part, at, ssm);
    SingleFits(o, k, m, part, at);
    SingleScheduled(o, k, m, part, at);
    SingleSeparate(k);
    var order := SingleOrder(k);
    t := LaunchedInOrder(k, m, order, part.scheduled);
  }

  lemma SingleState<S, E, V>(t: Turn<S, E, V>, t': Turn<S, E, V>, at: Place)
    requires SingleTurn(t, at) && SingleTurn(t', at) && t'.before.ssm == t.after.ssm
    ensures SameState(t, t', 0)
  {
  }

  /** A turn stays one when another follows. */
  lemma TurnKept<S, E, V>(o: ScanRuns.Ops<S, E, V>, h: seq<Token<E, V>>, front: seq<Turn<S, E, V>>, t: Turn<S, E, V>,
                          j: nat)
    requires j < |front| && TurnAt(o, 0, h, front, j)
    ensures TurnAt(o, 0, h, front + [t], j)
  {
    ComputedPrefix(front, t, j);
  }

  lemma TurnAdded<S, E, V>(o: ScanRuns.Ops<S, E, V>, h: seq<Token<E, V>>, front: seq<Turn<S, E, V>>, t: Turn<S, E, V>)
    requires TurnFrom(o, 0, h, Computed(front, |front|), t)
    requires front != [] ==> SameState(front[|front| - 1], t, 0)
    ensures TurnAt(o, 0, h, front + [t], |front|)
  {
    ComputedPrefix(front, t, |front|);
  }

  /** The first `n` turns are a run of single-row launches. */
  ghost predicate SingleRun<S, E, V>(o: ScanRuns.Ops<S, E, V>, h: seq<Token<E, V>>, turns: seq<Turn<S, E, V>>,
                                     at: Place, n: nat)
    requires n <= |turns|
    decreases n
  {
    n == 0 ||
    (&& SingleRun(o, h, turns, at, n - 1)
     && TurnAt(o, 0, h, turns, n - 1) && SingleTurn(turns[n - 1], at))
  }

  lemma {:induction false} SingleRunAt<S, E, V>(o: ScanRuns.Ops<S, E, V>, h: seq<Token<E, V>>,
                                                turns: seq<Turn<S, E, V>>, at: Place, n: nat, j: nat)
    requires j < n <= |turns| && SingleRun(o, h, turns, at, n)
    ensures TurnAt(o, 0, h, turns, j) && SingleTurn(turns[j], at)
    decreases n
  {
    if j < n - 1 {
      SingleRunAt(o, h, turns, at, n - 1, j);
    }
  }

  lemma {:induction false} RunKept<S, E, V>(o: ScanRuns.Ops<S, E, V>, h: seq<Token<E, V>>, front: seq<Turn<S, E, V>>,
                                            t: Turn<S, E, V>, at: Place, n: nat)
    requires n <= |front| && SingleRun(o, h, front, at, n)
    ensures SingleRun(o, h, front + [t], at, n)
    decreases n
  {
    if n > 0 {
      RunKept(o, h, front, t, at, n - 1);
      TurnKept(o, h, front, t, n - 1);
    }
  }

  /** Every split of every history can be run, with variable or fixed length, with or without cache indices. */
  lemma {:induction false} TurnsExist<S, E, V>(o: ScanRuns.Ops<S, E, V>, h: seq<Token<E, V>>, lens: seq<nat>,
                                               at: Place, ssm: seq<S>)
    returns (turns: seq<Turn<S, E, V>>)
    requires Sum(lens) <= |h| && InCache(at, ssm)
    ensures Schedules(turns, lens)
    ensures SingleRun(o, h, turns, at, |turns|)
    decreases |lens|
  {
    if lens == [] {
      turns := [];
    } else {
      var n := |lens| - 1;
      var front := TurnsExist(o, h, lens[..n], at, ssm);
      assert lens[..n][..n] == lens[..n];
      ComputedIsSum(front, lens[..n], n);
      turns := Extended(o, h, front, lens[n], at, ssm);
      forall i | 0 <= i < |lens| ensures turns[i].scheduled == lens[i] {
        assert i < n ==> turns[i] == front[i];
      }
    }
  }

  lemma Extended<S, E, V>(o: ScanRuns.Ops<S, E, V>, h: seq<Token<E, V>>, front: seq<Turn<S, E, V>>, scheduled: nat,
                          at: Place, ssm: seq<S>)
    returns (turns: seq<Turn<S, E, V>>)
    requires Computed(front, |front|) + scheduled <= |h| && InCache(at, ssm)
    requires SingleRun(o, h, front, at, |front|)
    ensures |turns| == |front| + 1 && turns[..|front|] == front && turns[|front|].scheduled == scheduled
    ensures SingleRun(o, h, turns, at, |turns|)
  {
    var t := TurnFollows(o, h, front, scheduled, at, ssm);
    RunAdded(o, h, front, t, at);
    turns := front + [t];
  }

  lemma RunAdded<S, E, V>(o: ScanRuns.Ops<S, E, V>, h: seq<Token<E, V>>, front: seq<Turn<S, E, V>>, t: Turn<S, E, V>,
                          at: Place)
    requires SingleRun(o, h, front, at, |front|)
    requires TurnAt(o, 0, h, front + [t], |front|) && SingleTurn(t, at)
    ensures SingleRun(o, h, front + [t], at, |front + [t]|)
  {
    RunKept(o, h, front, t, at, |front|);
  }

  lemma TurnFollows<S, E, V>(o: ScanRuns.Ops<S, E, V>, h: seq<Token<E, V>>, front: seq<Turn<S, E, V>>, scheduled: nat,
                             at: Place, ssm: seq<S>)
    returns (t: Turn<S, E, V>)
    requires Computed(front, |front|) + scheduled <= |h| && InCache(at, ssm)
    requires SingleRun(o, h, front, at, |front|)
    ensures TurnAt(o, 0, h, front + [t], |front|) && SingleTurn(t, at) && t.scheduled == scheduled
  {
    var n := |front|;
    var found := ssm;
    if n > 0 {
      SingleRunAt(o, h, front, at, n, n - 1);
      found := front[n - 1].after.ssm;
    }
    t := NextTurn(o, Part(h, Computed(front, n), scheduled), at, found);
    if n > 0 {
      SingleState(front[n - 1], t, at);
    }
    TurnAdded(o, h, front, t);
  }

  /** The resumed scan is the plain scan, without prefix caching too: for every step function, history and split of
      the history into launches, with variable or fixed length, with or without cache indices, there is a run, and
      in it every launch gives the outputs of one uninterrupted scan and leaves its state. */
  lemma EverySplitDone<S, E, V>(o: ScanRuns.Ops<S, E, V>, h: seq<Token<E, V>>, lens: seq<nat>, at: Place,
                                ssm: seq<S>)
    returns (turns: seq<Turn<S, E, V>>)
    requires Sum(lens) <= |h| && InCache(at, ssm)
    ensures Schedules(turns, lens)
    ensures forall j: nat :: j < |turns| ==> SingleTurn(turns[j], at) && DoneAt(o, 0, h, turns, j)
  {
    turns := TurnsExist(o, h, lens, at, ssm);
    forall j: nat | j < |turns| ensures SingleTurn(turns[j], at) && TurnAt(o, 0, h, turns, j) {
      SingleRunAt(o, h, turns, at, |turns|, j);
    }
    forall j: nat | j < |turns| ensures DoneAt(o, 0, h, turns, j) {
      TurnsDone(o, 0, h, turns, j);
    }
  }

  lemma SingleReady<S, E, V>(o: ScanRuns.Ops<S, E, V>, k: Kernel<S, E, V>, m: Mem<S, E>, part: Part<E, V>, at: Place)
    requires IsSingle(o, k, m, part, at) && Scheduled(o, k, m, 0, 0, part) && Finds(o, k, m, 0, 0, part)
    ensures Ready(o, k, m, [[part]]) && Contiguous(k.meta, k.deltaLayout)
  {
    forall b: nat, d: nat | b < k.meta.size && d < k.meta.dim ensures ReadyAt(o, k, m, [[part]], b, d) {
      assert b == 0 && d == 0;
    }
  }

  /** A launch as `LaunchPlain` takes it exists for every part of every history and every place of its state. */
  lemma PlainLaunchExists<S, E, V>(o: ScanRuns.Ops<S, E, V>, part: Part<E, V>, at: Place, ssm: seq<S>)
    returns (k: Kernel<S, E, V>, m: Mem<S, E>)
    requires part.computed + part.scheduled <= |part.h| && InCache(at, ssm) && 1 <= at.states.row <= at.states.batch
    requires part.computed > 0 ==>
               ssm[CellOf(at.states, at.slot, 0)] == ScanRuns.Plain(o, 0, part.h, part.computed)
    ensures Ready(o, k, m, [[part]]) && DenseStates(k.meta, k.ssmLayout) && Contiguous(k.meta, k.deltaLayout)
    ensures !k.hasZ && m.ssm == ssm && k.meta.varlen == at.varlen && k.meta.hasCacheIndices == at.indexed
  {
    k, m := SingleExists(o, part, at, ssm);
    SingleFits(o, k, m, part, at);
    SingleScheduled(o, k, m, part, at);
    SingleReady(o, k, m, part, at);
  }
}
