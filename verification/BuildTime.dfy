/** The weighted build-time sweep: each task's elapsed time, shared at every moment with the tasks
    running beside it. Times are integer milliseconds, weights are reals. */
module BuildTime {

  datatype Target = Target(start: int, end: int)

  /** A step of the sweep: target number `id` starts or stops. */
  datatype Event = Start(id: nat) | Stop(id: nat)

  datatype Result = Swept(weighted: seq<real>, total: real) | NoEvents | NotRunning

  function Time(ts: seq<Target>, e: Event): int
    requires e.id < |ts|
  {
    match e
    case Start(i) => ts[i].start
    case Stop(i) => ts[i].end
  }

  /** The sort key: the time, and "start" before "stop". */
  predicate NotAfter(ts: seq<Target>, e: Event, g: Event)
    requires e.id < |ts| && g.id < |ts|
  {
    Time(ts, e) < Time(ts, g) || (Time(ts, e) == Time(ts, g) && !(e.Stop? && g.Start?))
  }

  ghost predicate Listed(es: seq<Event>, i: nat) {
    Start(i) in es && Stop(i) in es
  }

  ghost predicate InOrder(ts: seq<Target>, es: seq<Event>, j: nat, k: nat)
    requires j < |es| && k < |es| && es[j].id < |ts| && es[k].id < |ts|
  {
    es[j] != es[k] && NotAfter(ts, es[j], es[k])
  }

  /** `es` holds the start and the stop of every target once, sorted by the key. */
  ghost predicate Sorted(ts: seq<Target>, es: seq<Event>) {
    && (forall k :: 0 <= k < |es| ==> es[k].id < |ts|)
    && (forall i :: 0 <= i < |ts| ==> Listed(es, i))
    && (forall j, k :: 0 <= j < k < |es| ==> InOrder(ts, es, j, k))
  }

  // ----- the meaning of weighted time

  predicate Covers(t: Target, x: int) {
    t.start <= x < t.end
  }

  /** How many targets are running in the millisecond after `x`. */
  function Count(ts: seq<Target>, x: int): nat {
    if ts == [] then 0
    else Count(ts[..|ts| - 1], x) + if Covers(ts[|ts| - 1], x) then 1 else 0
  }

  /** One target's share of that millisecond. */
  function Rate(ts: seq<Target>, x: int): real {
    if Count(ts, x) == 0 then 0.0 else 1.0 / Count(ts, x) as real
  }

  /** One target's share of the milliseconds of [lo, hi), if it runs throughout. */
  ghost function Share(ts: seq<Target>, lo: int, hi: int): real
    decreases hi - lo
  {
    if hi <= lo then 0.0 else Share(ts, lo, hi - 1) + Rate(ts, hi - 1)
  }

  /** Milliseconds of [lo, hi) in which some target runs. */
  ghost function Busy(ts: seq<Target>, lo: int, hi: int): nat
    decreases hi - lo
  {
    if hi <= lo then 0 else Busy(ts, lo, hi - 1) + if Count(ts, hi - 1) > 0 then 1 else 0
  }

  // ----- sums over milliseconds

  lemma {:induction false} ShareSplit(ts: seq<Target>, lo: int, mid: int, hi: int)
    requires lo <= mid <= hi
    ensures Share(ts, lo, hi) == Share(ts, lo, mid) + Share(ts, mid, hi)
    decreases hi - mid
  {
    if mid < hi {
      ShareSplit(ts, lo, mid, hi - 1);
    }
  }

  lemma {:induction false} ShareConstant(ts: seq<Target>, lo: int, hi: int, c: real)
    requires lo <= hi && forall x :: lo <= x < hi ==> Rate(ts, x) == c
    ensures Share(ts, lo, hi) == (hi - lo) as real * c
    decreases hi - lo
  {
    if lo < hi {
      ShareConstant(ts, lo, hi - 1, c);
      assert (hi - lo) as real * c == (hi - 1 - lo) as real * c + c;
    }
  }

  lemma {:induction false} ShareBetween(ts: seq<Target>, lo: int, hi: int, a: real, b: real)
    requires lo <= hi && forall x :: lo <= x < hi ==> a <= Rate(ts, x) <= b
    ensures (hi - lo) as real * a <= Share(ts, lo, hi) <= (hi - lo) as real * b
    decreases hi - lo
  {
    if lo < hi {
      ShareBetween(ts, lo, hi - 1, a, b);
      Between((hi - 1 - lo) as real, a, b, Share(ts, lo, hi - 1), Rate(ts, hi - 1));
      assert (hi - lo) as real == (hi - 1 - lo) as real + 1.0;
    }
  }

  lemma Between(n: real, a: real, b: real, share: real, rate: real)
    requires n * a <= share <= n * b && a <= rate <= b
    ensures (n + 1.0) * a <= share + rate <= (n + 1.0) * b
  {
  }

  // ----- counting running targets

  ghost function Running(ts: seq<Target>, x: int): set<nat> {
    set i: nat | i < |ts| && Covers(ts[i], x)
  }

  lemma {:induction false} CountIsSize(ts: seq<Target>, x: int)
    ensures Count(ts, x) == |Running(ts, x)|
    decreases |ts|
  {
    if ts == [] {
      assert Running(ts, x) == {};
    } else {
      var n := |ts| - 1;
      CountIsSize(ts[..n], x);
      var before := Running(ts[..n], x);
      assert n !in before;
      assert Running(ts, x) == before + (if Covers(ts[n], x) then {n} else {});
    }
  }

  lemma {:induction false} CountBounds(ts: seq<Target>, i: nat, x: int)
    requires i < |ts| && Covers(ts[i], x)
    ensures 1 <= Count(ts, x) <= |ts|
    decreases |ts|
  {
    CountAtMost(ts[..|ts| - 1], x);
    if i < |ts| - 1 {
      CountBounds(ts[..|ts| - 1], i, x);
    }
  }

  lemma {:induction false} CountAtMost(ts: seq<Target>, x: int)
    ensures Count(ts, x) <= |ts|
    decreases |ts|
  {
    if ts != [] {
      CountAtMost(ts[..|ts| - 1], x);
    }
  }

  // ----- conservation

  /** The shares, at the rates of `all`, of the targets `ts`. */
  ghost function SumShares(all: seq<Target>, ts: seq<Target>): real {
    if ts == [] then 0.0
    else SumShares(all, ts[..|ts| - 1]) + Share(all, ts[|ts| - 1].start, ts[|ts| - 1].end)
  }

  function Repeated(c: nat, y: real): real {
    if c == 0 then 0.0 else Repeated(c - 1, y) + y
  }

  lemma {:induction false} RepeatedIs(c: nat, y: real)
    ensures Repeated(c, y) == c as real * y
  {
    if c > 0 {
      RepeatedIs(c - 1, y);
      assert c as real * y == (c - 1) as real * y + y;
    }
  }

  /** The same sum taken millisecond by millisecond, each as often as targets of `ts` run in it. */
  ghost function ByMillisecond(all: seq<Target>, ts: seq<Target>, lo: int, hi: int): real
    decreases hi - lo
  {
    if hi <= lo then 0.0 else ByMillisecond(all, ts, lo, hi - 1) + Repeated(Count(ts, hi - 1), Rate(all, hi - 1))
  }

  lemma {:induction false} NoTargets(all: seq<Target>, lo: int, hi: int)
    ensures ByMillisecond(all, [], lo, hi) == 0.0
    decreases hi - lo
  {
    if lo < hi {
      NoTargets(all, lo, hi - 1);
    }
  }

  /** The part of [lo, hi) in which `t` runs. */
  function Clip(x: int, lo: int, hi: int): int {
    if x < lo then lo else if hi < x then hi else x
  }

  lemma {:induction false} OneMoreTarget(all: seq<Target>, ts: seq<Target>, t: Target, lo: int, hi: int)
    requires lo <= hi && t.start <= t.end
    ensures ByMillisecond(all, ts + [t], lo, hi) ==
            ByMillisecond(all, ts, lo, hi) + Share(all, Clip(t.start, lo, hi), Clip(t.end, lo, hi))
    decreases hi - lo
  {
    if lo < hi {
      OneMoreTarget(all, ts, t, lo, hi - 1);
      var x := hi - 1;
      assert (ts + [t])[..|ts|] == ts;
      assert Count(ts + [t], x) == Count(ts, x) + if Covers(t, x) then 1 else 0;
      ClipGrows(all, t, lo, hi);
    }
  }

  lemma ClipGrows(all: seq<Target>, t: Target, lo: int, hi: int)
    requires lo < hi && t.start <= t.end
    ensures Share(all, Clip(t.start, lo, hi), Clip(t.end, lo, hi)) ==
            Share(all, Clip(t.start, lo, hi - 1), Clip(t.end, lo, hi - 1))
            + if Covers(t, hi - 1) then Rate(all, hi - 1) else 0.0
  {
    if t.start >= hi {
      assert Clip(t.start, lo, hi) == Clip(t.end, lo, hi) == hi;
    } else if t.end < hi {
      assert Clip(t.end, lo, hi) == Clip(t.end, lo, hi - 1);
    }
  }

  /** Adding up over targets is adding up over milliseconds. */
  lemma {:induction false} SumByMillisecond(all: seq<Target>, ts: seq<Target>, lo: int, hi: int)
    requires lo <= hi && forall i :: 0 <= i < |ts| ==> lo <= ts[i].start <= ts[i].end <= hi
    ensures SumShares(all, ts) == ByMillisecond(all, ts, lo, hi)
    decreases |ts|
  {
    if ts == [] {
      NoTargets(all, lo, hi);
    } else {
      var n := |ts| - 1;
      SumByMillisecond(all, ts[..n], lo, hi);
      OneMoreTarget(all, ts[..n], ts[n], lo, hi);
      assert ts[..n] + [ts[n]] == ts;
    }
  }

  lemma {:induction false} BusyByMillisecond(ts: seq<Target>, lo: int, hi: int)
    ensures ByMillisecond(ts, ts, lo, hi) == Busy(ts, lo, hi) as real
    decreases hi - lo
  {
    if lo < hi {
      BusyByMillisecond(ts, lo, hi - 1);
      RepeatedIs(Count(ts, hi - 1), Rate(ts, hi - 1));
      var c := Count(ts, hi - 1) as real;
      assert c > 0.0 ==> c * (1.0 / c) == 1.0;
    }
  }

  /** Weighted time is conserved: the shares of all targets add up to the time in which any ran. */
  lemma SharesAreConserved(ts: seq<Target>, lo: int, hi: int)
    requires lo <= hi && forall i :: 0 <= i < |ts| ==> lo <= ts[i].start <= ts[i].end <= hi
    ensures SumShares(ts, ts) == Busy(ts, lo, hi) as real
  {
    SumByMillisecond(ts, ts, lo, hi);
    BusyByMillisecond(ts, lo, hi);
  }

  /** ... which is the whole length exactly when there is no idle gap. */
  lemma {:induction false} BusyIsLengthIff(ts: seq<Target>, lo: int, hi: int)
    requires lo <= hi
    ensures Busy(ts, lo, hi) <= hi - lo
    ensures Busy(ts, lo, hi) == hi - lo <==> forall x :: lo <= x < hi ==> Count(ts, x) > 0
    decreases hi - lo
  {
    if lo < hi {
      BusyIsLengthIff(ts, lo, hi - 1);
      assert Count(ts, hi - 1) > 0 <==> Busy(ts, lo, hi) == Busy(ts, lo, hi - 1) + 1;
    }
  }

  /** A target's share lies between an n-th of its duration and its duration. */
  lemma ShareBounds(ts: seq<Target>, i: nat)
    requires i < |ts| && ts[i].start <= ts[i].end
    ensures var duration := (ts[i].end - ts[i].start) as real;
            duration * (1.0 / |ts| as real) <= Share(ts, ts[i].start, ts[i].end) <= duration
  {
    var lo, hi := ts[i].start, ts[i].end;
    forall x | lo <= x < hi ensures 1.0 / |ts| as real <= Rate(ts, x) <= 1.0 {
      CountBounds(ts, i, x);
      Reciprocal(Count(ts, x) as real, |ts| as real);
    }
    ShareBetween(ts, lo, hi, 1.0 / |ts| as real, 1.0);
  }

  lemma Reciprocal(c: real, n: real)
    requires 1.0 <= c <= n
    ensures 1.0 / n <= 1.0 / c <= 1.0
  {
    assert 1.0 / c - 1.0 / n == (n - c) / (c * n);
  }
}
