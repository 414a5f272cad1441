/** The sweep over start and stop events computes every target's share, or fails exactly when some
    target ends before it starts. */
module BuildSweep {
  import opened BuildTime

  /** Targets that have started and not stopped in the first `k` events. */
  ghost function Tasks(ts: seq<Target>, es: seq<Event>, k: nat): set<nat>
    requires k <= |es|
  {
    set i: nat | i < |ts| && Start(i) in es[..k] && Stop(i) !in es[..k]
  }

  lemma Prefix(es: seq<Event>, k: nat, e: Event)
    requires k < |es|
    ensures e in es[..k + 1] <==> e in es[..k] || e == es[k]
  {
    assert es[..k + 1] == es[..k] + [es[k]];
  }

  lemma InPrefix(ts: seq<Target>, es: seq<Event>, k: nat, e: Event)
    requires Sorted(ts, es) && k < |es| && e in es
    ensures e in es[..k] ==> e != es[k] && e.id < |ts| && NotAfter(ts, e, es[k])
    ensures e !in es[..k] ==> e.id < |ts| && (e == es[k] || NotAfter(ts, es[k], e))
  {
    var p :| 0 <= p < |es| && es[p] == e;
    if p < k {
      assert es[..k][p] == e;
    } else if p > k {
      assert InOrder(ts, es, k, p);
    }
    if e in es[..k] {
      var q :| 0 <= q < k && es[..k][q] == e;
      assert es[q] == e && InOrder(ts, es, q, k);
    }
  }

  /** Between two consecutive events the running targets do not change. */
  lemma RunningBetween(ts: seq<Target>, es: seq<Event>, k: nat, x: int)
    requires Sorted(ts, es) && 0 < k < |es| && Time(ts, es[k - 1]) <= x < Time(ts, es[k])
    ensures Running(ts, x) == Tasks(ts, es, k)
  {
    forall i: nat | i < |ts| ensures Covers(ts[i], x) <==> Start(i) in es[..k] && Stop(i) !in es[..k] {
      CoversIff(ts, es, k, x, i);
    }
  }

  lemma CoversIff(ts: seq<Target>, es: seq<Event>, k: nat, x: int, i: nat)
    requires Sorted(ts, es) && 0 < k < |es| && Time(ts, es[k - 1]) <= x < Time(ts, es[k]) && i < |ts|
    ensures Covers(ts[i], x) <==> Start(i) in es[..k] && Stop(i) !in es[..k]
  {
    assert Listed(es, i);
    InPrefix(ts, es, k, Start(i));
    InPrefix(ts, es, k, Stop(i));
    InPrefix(ts, es, k - 1, Start(i));
    InPrefix(ts, es, k - 1, Stop(i));
    Prefix(es, k - 1, Start(i));
    Prefix(es, k - 1, Stop(i));
  }

  /** What the sweep adds between two events is the share of the time between them. */
  lemma AddedShare(ts: seq<Target>, es: seq<Event>, k: nat, last: int, n: nat)
    requires Sorted(ts, es) && k < |es| && n == |Tasks(ts, es, k)|
    requires last == if k == 0 then Time(ts, es[0]) else Time(ts, es[k - 1])
    ensures last <= Time(ts, es[k])
    ensures Share(ts, last, Time(ts, es[k])) == if n > 0 then (Time(ts, es[k]) - last) as real / n as real else 0.0
  {
    var time := Time(ts, es[k]);
    assert k > 0 ==> InOrder(ts, es, k - 1, k);
    var c := if n == 0 then 0.0 else 1.0 / n as real;
    forall x | last <= x < time ensures Rate(ts, x) == c {
      RunningBetween(ts, es, k, x);
      CountIsSize(ts, x);
    }
    ShareConstant(ts, last, time, c);
    if n > 0 {
      Quotient((time - last) as real, n as real);
    }
  }

  lemma Quotient(a: real, n: real)
    requires n > 0.0
    ensures a * (1.0 / n) == a / n
  {
  }

  /** The shares of the targets among the first `n` that have stopped. */
  ghost function Stopped(ts: seq<Target>, done: seq<Event>, n: nat): real
    requires n <= |ts|
  {
    if n == 0 then 0.0
    else Stopped(ts, done, n - 1) + if Stop(n - 1) in done then Share(ts, ts[n - 1].start, ts[n - 1].end) else 0.0
  }

  lemma {:induction false} StoppedNext(ts: seq<Target>, done: seq<Event>, e: Event, n: nat)
    requires n <= |ts| && e !in done && e.id < |ts|
    ensures Stopped(ts, done + [e], n) ==
            Stopped(ts, done, n) + if e.Stop? && e.id < n then Share(ts, ts[e.id].start, ts[e.id].end) else 0.0
    decreases n
  {
    if n > 0 {
      StoppedNext(ts, done, e, n - 1);
    }
  }

  lemma {:induction false} AllStopped(ts: seq<Target>, es: seq<Event>, n: nat)
    requires n <= |ts| && forall i :: 0 <= i < n ==> Stop(i) in es
    ensures Stopped(ts, es, n) == SumShares(ts, ts[..n])
    decreases n
  {
    if n > 0 {
      AllStopped(ts, es, n - 1);
      assert ts[..n][..n - 1] == ts[..n - 1];
    }
  }

  lemma {:induction false} NoneStopped(ts: seq<Target>, n: nat)
    requires n <= |ts|
    ensures Stopped(ts, [], n) == 0.0
  {
    if n > 0 {
      NoneStopped(ts, n - 1);
    }
  }

  /** A stop event finds its target running exactly when the target does not end before it starts. */
  lemma StopFindsTask(ts: seq<Target>, es: seq<Event>, k: nat)
    requires Sorted(ts, es) && k < |es| && es[k].Stop?
    ensures es[k].id in Tasks(ts, es, k) <==> ts[es[k].id].start <= ts[es[k].id].end
  {
    var i := es[k].id;
    assert Listed(es, i);
    InPrefix(ts, es, k, Start(i));
    InPrefix(ts, es, k, Stop(i));
  }

  /** No target that has stopped ends before it starts. */
  ghost predicate FineSoFar(ts: seq<Target>, es: seq<Event>, k: nat)
    requires k <= |es|
  {
    forall i {:trigger Stop(i)} :: 0 <= i < |ts| && Stop(i) in es[..k] ==> ts[i].start <= ts[i].end
  }

  lemma StartIsNew(ts: seq<Target>, es: seq<Event>, k: nat)
    requires Sorted(ts, es) && k < |es| && es[k].Start? && FineSoFar(ts, es, k)
    ensures Stop(es[k].id) !in es[..k]
  {
    assert Listed(es, es[k].id);
    InPrefix(ts, es, k, Stop(es[k].id));
  }

  lemma TasksNext(ts: seq<Target>, es: seq<Event>, k: nat)
    requires Sorted(ts, es) && k < |es| && FineSoFar(ts, es, k)
    requires es[k].Stop? ==> ts[es[k].id].start <= ts[es[k].id].end
    ensures Tasks(ts, es, k + 1) ==
            if es[k].Start? then Tasks(ts, es, k) + {es[k].id} else Tasks(ts, es, k) - {es[k].id}
    ensures FineSoFar(ts, es, k + 1)
  {
    forall e ensures e in es[..k + 1] <==> e in es[..k] || e == es[k] {
      Prefix(es, k, e);
    }
    if es[k].Start? {
      StartIsNew(ts, es, k);
    }
  }

  // ----- the sweep

  /** The weighted time at `last`, and at the start of every running target. */
  ghost predicate Clock(ts: seq<Target>, es: seq<Event>, k: nat, t0: int, last: int, running: map<nat, real>,
                        weightedTime: real)
    requires k <= |es|
  {
    && t0 <= last && weightedTime == Share(ts, t0, last)
    && running.Keys == Tasks(ts, es, k)
    && (forall i :: i in running ==> i < |ts| && t0 <= ts[i].start && running[i] == Share(ts, t0, ts[i].start))
  }

  /** The weighted durations of the targets that have stopped, and their sum. */
  ghost predicate Ledger(ts: seq<Target>, es: seq<Event>, k: nat, weighted: seq<real>, total: real)
    requires k <= |es|
  {
    && |weighted| == |ts|
    && (forall i {:trigger Stop(i)} {:trigger weighted[i]} :: 0 <= i < |ts| && Stop(i) in es[..k] ==>
          weighted[i] == Share(ts, ts[i].start, ts[i].end))
    && total == Stopped(ts, es[..k], |ts|)
  }

  lemma EventIsNew(ts: seq<Target>, es: seq<Event>, k: nat)
    requires Sorted(ts, es) && k < |es|
    ensures es[k] !in es[..k] && es[..k + 1] == es[..k] + [es[k]]
    ensures forall e :: e in es[..k + 1] <==> e in es[..k] || e == es[k]
  {
    InPrefix(ts, es, k, es[k]);
  }

  lemma LedgerStart(ts: seq<Target>, es: seq<Event>, k: nat, weighted: seq<real>, total: real)
    requires Sorted(ts, es) && k < |es| && es[k].Start? && Ledger(ts, es, k, weighted, total)
    ensures Ledger(ts, es, k + 1, weighted, total)
  {
    EventIsNew(ts, es, k);
    StoppedNext(ts, es[..k], es[k], |ts|);
  }

  lemma LedgerStop(ts: seq<Target>, es: seq<Event>, k: nat, weighted: seq<real>, total: real)
    requires Sorted(ts, es) && k < |es| && es[k].Stop? && Ledger(ts, es, k, weighted, total)
    ensures var i := es[k].id;
            var duration := Share(ts, ts[i].start, ts[i].end);
            Ledger(ts, es, k + 1, weighted[i := duration], total + duration)
  {
    EventIsNew(ts, es, k);
    StoppedNext(ts, es[..k], es[k], |ts|);
  }

  lemma ClockStart(ts: seq<Target>, es: seq<Event>, k: nat, t0: int, last: int, running: map<nat, real>,
                   weightedTime: real)
    requires Sorted(ts, es) && k < |es| && es[k].Start? && FineSoFar(ts, es, k) && t0 <= Time(ts, es[k])
    requires Clock(ts, es, k, t0, last, running, weightedTime)
    ensures var now := Share(ts, t0, Time(ts, es[k]));
            Clock(ts, es, k + 1, t0, Time(ts, es[k]), running[es[k].id := now], now)
  {
    TasksNext(ts, es, k);
  }

  /** A running target that stops has gathered its own share. */
  lemma ClockStop(ts: seq<Target>, es: seq<Event>, k: nat, t0: int, last: int, running: map<nat, real>,
                  weightedTime: real)
    requires Sorted(ts, es) && k < |es| && es[k].Stop? && FineSoFar(ts, es, k) && t0 <= Time(ts, es[k])
    requires Clock(ts, es, k, t0, last, running, weightedTime)
    requires es[k].id in running && ts[es[k].id].start <= ts[es[k].id].end
    ensures var now, i := Share(ts, t0, Time(ts, es[k])), es[k].id;
            && Clock(ts, es, k + 1, t0, Time(ts, es[k]), running - {i}, now)
            && now - running[i] == Share(ts, ts[i].start, ts[i].end)
  {
    TasksNext(ts, es, k);
    ShareSplit(ts, t0, ts[es[k].id].start, ts[es[k].id].end);
  }

  /** The weighted time brought up to event `k`. */
  method Advance(ts: seq<Target>, es: seq<Event>, k: nat, ghost t0: int, last: int, numRunning: nat,
                 weightedTime0: real)
    returns (weightedTime: real)
    requires Sorted(ts, es) && k < |es| && t0 <= last && numRunning == |Tasks(ts, es, k)|
    requires last == if k == 0 then Time(ts, es[0]) else Time(ts, es[k - 1])
    requires weightedTime0 == Share(ts, t0, last)
    ensures t0 <= Time(ts, es[k]) && weightedTime == Share(ts, t0, Time(ts, es[k]))
  {
    weightedTime := weightedTime0;
    AddedShare(ts, es, k, last, numRunning);
    ShareSplit(ts, t0, last, Time(ts, es[k]));
    if numRunning > 0 {
      weightedTime := weightedTime + (Time(ts, es[k]) - last) as real / numRunning as real;
    }
  }

  /** One event of the sweep: bring the weighted time up to now, then start or stop the target. */
  method SweepEvent(ts: seq<Target>, es: seq<Event>, k: nat, ghost t0: int, last: int,
                    running0: map<nat, real>, weightedTime0: real, weighted0: seq<real>, total0: real)
    returns (ok: bool, running: map<nat, real>, weightedTime: real, weighted: seq<real>, total: real)
    requires Sorted(ts, es) && k < |es| && FineSoFar(ts, es, k)
    requires last == if k == 0 then Time(ts, es[0]) else Time(ts, es[k - 1])
    requires Clock(ts, es, k, t0, last, running0, weightedTime0) && Ledger(ts, es, k, weighted0, total0)
    ensures ok <==> (es[k].Stop? ==> ts[es[k].id].start <= ts[es[k].id].end)
    ensures ok ==> FineSoFar(ts, es, k + 1)
    ensures ok ==> Clock(ts, es, k + 1, t0, Time(ts, es[k]), running, weightedTime)
    ensures ok ==> Ledger(ts, es, k + 1, weighted, total)
  {
    running, weighted, total := running0, weighted0, total0;
    var event := es[k];
    assert |running0| == |running0.Keys|;
    weightedTime := Advance(ts, es, k, t0, last, |running0|, weightedTime0);
    if event.Start? {
      TasksNext(ts, es, k);
      ClockStart(ts, es, k, t0, last, running0, weightedTime0);
      LedgerStart(ts, es, k, weighted0, total0);
      running := running[event.id := weightedTime];
      ok := true;
    } else {
      StopFindsTask(ts, es, k);
      ok := event.id in running;
      if ok {
        TasksNext(ts, es, k);
        ClockStop(ts, es, k, t0, last, running0, weightedTime0);
        LedgerStop(ts, es, k, weighted0, total0);
        var duration := weightedTime - running[event.id];
        weighted := weighted[event.id := duration];
        total := total + duration;
        running := running - {event.id};
      }
    }
  }

  /** The event loop of `SummarizeEntries`, for any sorted list of the targets' events. It fails on
      an empty list, fails when a stop finds no running task, which happens exactly when some target
      ends before it starts, and otherwise gives every target its share. */
  method Sweep(ts: seq<Target>, es: seq<Event>) returns (r: Result)
    requires Sorted(ts, es)
    ensures r.NoEvents? <==> es == []
    ensures es != [] ==> (r.Swept? <==> forall i :: 0 <= i < |ts| ==> ts[i].start <= ts[i].end)
    ensures r.Swept? ==>
              && |r.weighted| == |ts|
              && (forall i :: 0 <= i < |ts| ==> r.weighted[i] == Share(ts, ts[i].start, ts[i].end))
              && r.total == SumShares(ts, ts)
  {
    if es == [] {
      return NoEvents;
    }
    var last := Time(ts, es[0]);
    ghost var t0 := last;
    var running: map<nat, real> := map[];
    var weightedTime, total := 0.0, 0.0;
    var weighted := seq(|ts|, _ => 0.0);
    NoneStopped(ts, |ts|);
    for k := 0 to |es|
      invariant last == if k == 0 then Time(ts, es[0]) else Time(ts, es[k - 1])
      invariant FineSoFar(ts, es, k)
      invariant Clock(ts, es, k, t0, last, running, weightedTime) && Ledger(ts, es, k, weighted, total)
    {
      var ok;
      ok, running, weightedTime, weighted, total :=
        SweepEvent(ts, es, k, t0, last, running, weightedTime, weighted, total);
      if !ok {
        return NotRunning;
      }
      last := Time(ts, es[k]);
    }
    assert es[..|es|] == es && ts[..|ts|] == ts;
    forall i | 0 <= i < |ts| ensures Stop(i) in es && ts[i].start <= ts[i].end {
      assert Listed(es, i);
    }
    AllStopped(ts, es, |ts|);
    assert running.Keys == {};
    return Swept(weighted, total);
  }

  // ----- the figures the report prints

  /** `earliest`, `latest` and the sum of the durations. */
  method Extent(ts: seq<Target>) returns (earliest: int, latest: int, cpuTime: int)
    ensures ts == [] ==> earliest == -1
    ensures ts != [] ==> exists i :: 0 <= i < |ts| && earliest == ts[i].start
    ensures (forall i :: 0 <= i < |ts| ==> ts[i].start >= 0) ==> forall i :: 0 <= i < |ts| ==> earliest <= ts[i].start
    ensures latest >= 0 && forall i :: 0 <= i < |ts| ==> ts[i].end <= latest
    ensures latest == 0 || exists i :: 0 <= i < |ts| && latest == ts[i].end
    ensures cpuTime == Durations(ts)
  {
    earliest, latest, cpuTime := -1, 0, 0;
    for k := 0 to |ts|
      invariant if k == 0 then earliest == -1 else exists i :: 0 <= i < k && earliest == ts[i].start
      invariant (forall i :: 0 <= i < k ==> ts[i].start >= 0) ==> forall i :: 0 <= i < k ==> earliest <= ts[i].start
      invariant latest >= 0 && forall i :: 0 <= i < k ==> ts[i].end <= latest
      invariant latest == 0 || exists i :: 0 <= i < k && latest == ts[i].end
      invariant cpuTime == Durations(ts[..k])
    {
      var target := ts[k];
      if earliest < 0 || target.start < earliest {
        earliest := target.start;
      }
      if target.end > latest {
        latest := target.end;
      }
      cpuTime := cpuTime + (target.end - target.start);
      assert ts[..k + 1][..k] == ts[..k];
    }
    assert ts[..|ts|] == ts;
  }

  function Durations(ts: seq<Target>): int {
    if ts == [] then 0 else Durations(ts[..|ts| - 1]) + (ts[|ts| - 1].end - ts[|ts| - 1].start)
  }

  /** Targets running in each millisecond of [lo, hi), added up. */
  function Load(ts: seq<Target>, lo: int, hi: int): nat
    decreases hi - lo
  {
    if hi <= lo then 0 else Load(ts, lo, hi - 1) + Count(ts, hi - 1)
  }

  lemma {:induction false} LoadOfNone(lo: int, hi: int)
    ensures Load([], lo, hi) == 0
    decreases hi - lo
  {
    if lo < hi {
      LoadOfNone(lo, hi - 1);
    }
  }

  /** One more target adds the milliseconds it runs in. */
  lemma {:induction false} LoadSnoc(ts: seq<Target>, lo: int, hi: int)
    requires ts != [] && lo <= hi && lo <= ts[|ts| - 1].start
    ensures var t := ts[|ts| - 1];
            var end := if t.end < hi then t.end else hi;
            Load(ts, lo, hi) == Load(ts[..|ts| - 1], lo, hi) + if t.start < end then end - t.start else 0
    decreases hi - lo
  {
    if lo < hi {
      LoadSnoc(ts, lo, hi - 1);
    }
  }

  /** The CPU time of the report adds up, millisecond by millisecond, the targets that run; with targets that end
      before they start it is less. */
  lemma {:induction false} DurationsAreLoad(ts: seq<Target>, lo: int, hi: int)
    requires lo <= hi && forall i :: 0 <= i < |ts| ==> lo <= ts[i].start && ts[i].end <= hi
    ensures Durations(ts) <= Load(ts, lo, hi)
    ensures Durations(ts) == Load(ts, lo, hi) <==> forall i :: 0 <= i < |ts| ==> ts[i].start <= ts[i].end
    decreases |ts|
  {
    if ts == [] {
      LoadOfNone(lo, hi);
    } else {
      LoadSnoc(ts, lo, hi);
      DurationsAreLoad(ts[..|ts| - 1], lo, hi);
    }
  }

  /** The weighted total is the length of the build exactly when the build has no idle gap. */
  lemma TotalIsLengthIff(ts: seq<Target>, earliest: int, latest: int)
    requires earliest <= latest && forall i :: 0 <= i < |ts| ==> earliest <= ts[i].start <= ts[i].end <= latest
    ensures SumShares(ts, ts) <= (latest - earliest) as real
    ensures SumShares(ts, ts) == (latest - earliest) as real <==>
            forall x :: earliest <= x < latest ==> Count(ts, x) > 0
  {
    SharesAreConserved(ts, earliest, latest);
    BusyIsLengthIff(ts, earliest, latest);
  }
}
