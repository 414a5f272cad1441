/** The spin loop: it polls a callback and, where the processor can, sleeps on the monitored line that
    another party writes. */
module SpinLoop {
  import opened Wrappers

  datatype Outcome = ReturnTrue | ReturnFalse | Raise

  /** Where the loop is. */
  datatype Pc =
    | Poll                   // the first callback of a pass
    | Tick                   // the timeout check and the increment
    | Arm                    // about to arm the monitor
    | Recheck                // the callback after arming
    | Wait                   // in mwaitx
    | Pause                  // the fallback without a monitor
    | Done(outcome: Outcome)

  /** The monitor hardware: a store to the line after arming triggers it. */
  datatype Monitor = Idle | Armed | Triggered

  /** What the loop has seen. */
  datatype Seen = Called(result: bool) | CallFailed | Clock(elapsed: real) | ClockFailed

  datatype Config = Config(timeout: real, monitors: bool) {
    predicate HaveTimeout() {
      timeout > 0.000000001
    }
  }

  /** `cond` is whether the callback would find the line as awaited; `passes` counts the times the
      counter was incremented, without its wrap-around. */
  datatype State = State(pc: Pc, iteration: nat, monitor: Monitor, cond: bool, passes: nat, seen: seq<Seen>)

  /** A step of the writer, or of the loop; the flags and the reading are what the environment does. */
  datatype Step =
    | Store(cond: bool)
    | Call(fails: bool)
    | Check(reading: Option<real>)
    | ArmMonitor
    | Wake(hardwareTimeout: bool)
    | Resume

  const WRAP := 0x1_0000_0000

  function Start(cond: bool): State {
    State(Poll, 0, Idle, cond, 0, [])
  }

  /** The clock is read in this pass. */
  predicate Due(cfg: Config, s: State) {
    cfg.HaveTimeout() && s.iteration % 16 == 0
  }

  predicate Enabled(s: State, a: Step) {
    match a
    case Store(_) => true
    case Call(_) => s.pc.Poll? || s.pc.Recheck?
    case Check(_) => s.pc.Tick?
    case ArmMonitor => s.pc.Arm?
    case Wake(hardwareTimeout) => s.pc.Wait? && (hardwareTimeout || s.monitor != Armed)
    case Resume => s.pc.Pause?
  }

  function Observe(s: State, o: Seen): State {
    s.(seen := s.seen + [o])
  }

  function Next(cfg: Config, s: State, a: Step): State
    requires Enabled(s, a)
  {
    match a
    case Store(c) => s.(cond := c, monitor := if s.monitor == Armed then Triggered else s.monitor)
    case Call(true) => Observe(s, CallFailed).(pc := Done(Raise))
    case Call(false) =>
      Observe(s, Called(s.cond)).(
        pc := if s.cond then Done(ReturnTrue) else if s.pc.Poll? then Tick else Wait)
    case Check(reading) =>
      if Due(cfg, s) && reading.None? then Observe(s, ClockFailed).(pc := Done(Raise))
      else if Due(cfg, s) && reading.value >= cfg.timeout then
        Observe(s, Clock(reading.value)).(pc := Done(ReturnFalse))
      else
        (if Due(cfg, s) then Observe(s, Clock(reading.value)) else s).(
          pc := if cfg.monitors then Arm else Pause,
          iteration := (s.iteration + 1) % WRAP,
          passes := s.passes + 1)
    case ArmMonitor => s.(monitor := Armed, pc := Recheck)
    case Wake(_) => s.(monitor := Idle, pc := Poll)
    case Resume => s.(pc := Poll)
  }

  ghost predicate Reaches(cfg: Config, s: State, steps: seq<Step>, s': State)
    decreases |steps|
  {
    if steps == [] then s == s'
    else Enabled(s, steps[0]) && Reaches(cfg, Next(cfg, s, steps[0]), steps[1..], s')
  }

  // ----- what an observation decides

  function Decides(cfg: Config, o: Seen): Option<Outcome> {
    match o
    case Called(true) => Some(ReturnTrue)
    case Called(false) => None
    case Clock(elapsed) => if elapsed >= cfg.timeout then Some(ReturnFalse) else None
    case _ => Some(Raise)
  }

  ghost predicate Undecided(cfg: Config, seen: seq<Seen>) {
    forall i :: 0 <= i < |seen| ==> Decides(cfg, seen[i]).None?
  }

  function ClockReads(seen: seq<Seen>): nat {
    if seen == [] then 0
    else ClockReads(seen[..|seen| - 1]) + if seen[|seen| - 1].Clock? then 1 else 0
  }

  // ----- the invariants

  /** While the loop sleeps on an armed monitor, the condition is false: the callback after arming
      said so, and no store has come since. */
  predicate Watching(s: State) {
    && (s.pc.Recheck? ==> s.monitor != Idle)
    && (s.pc.Wait? ==> s.monitor == Triggered || (s.monitor == Armed && !s.cond))
  }

  ghost predicate History(cfg: Config, s: State) {
    && (s.pc.Done? ==> s.seen != [] && Decides(cfg, s.seen[|s.seen| - 1]) == Some(s.pc.outcome))
    && Undecided(cfg, if s.pc.Done? then s.seen[..|s.seen| - 1] else s.seen)
    && (cfg.HaveTimeout() || ClockReads(s.seen) == 0)
  }

  /** How many of the first `passes` passes have a number divisible by sixteen. */
  function Sixteenths(passes: nat): nat {
    if passes == 0 then 0 else Sixteenths(passes - 1) + if (passes - 1) % 16 == 0 then 1 else 0
  }

  /** One clock reading for each sixteen passes, also across the wrap-around of the counter. */
  ghost predicate Counted(cfg: Config, s: State) {
    && s.iteration == s.passes % WRAP
    && (cfg.HaveTimeout() && !s.pc.Done? ==> ClockReads(s.seen) == Sixteenths(s.passes))
  }

  lemma WatchingKept(cfg: Config, s: State, a: Step)
    requires Watching(s) && Enabled(s, a)
    ensures Watching(Next(cfg, s, a))
  {
  }

  lemma SeenSnoc(cfg: Config, seen: seq<Seen>, o: Seen)
    ensures ClockReads(seen + [o]) == ClockReads(seen) + if o.Clock? then 1 else 0
    ensures (seen + [o])[..|seen|] == seen
  {
    assert (seen + [o])[..|seen|] == seen;
  }

  /** A new observation stops the loop exactly when it decides. */
  ghost predicate Heeds(cfg: Config, s: State, o: Seen, s': State) {
    && s'.seen == s.seen + [o]
    && (if Decides(cfg, o).None? then !s'.pc.Done? else s'.pc == Done(Decides(cfg, o).value))
    && (o.Clock? ==> cfg.HaveTimeout())
  }

  lemma UndecidedSnoc(cfg: Config, seen: seq<Seen>, o: Seen)
    requires Undecided(cfg, seen) && Decides(cfg, o).None?
    ensures Undecided(cfg, seen + [o])
  {
  }

  lemma HeedsKeeps(cfg: Config, s: State, o: Seen, s': State)
    requires History(cfg, s) && !s.pc.Done? && Heeds(cfg, s, o, s')
    ensures History(cfg, s')
  {
    SeenSnoc(cfg, s.seen, o);
    if !s'.pc.Done? {
      UndecidedSnoc(cfg, s.seen, o);
    }
  }

  lemma StepHeeds(cfg: Config, s: State, a: Step)
    requires Enabled(s, a) && (a.Call? || (a.Check? && Due(cfg, s)))
    ensures var s' := Next(cfg, s, a);
            |s'.seen| == |s.seen| + 1 && Heeds(cfg, s, s'.seen[|s.seen|], s')
  {
  }

  lemma HistoryKept(cfg: Config, s: State, a: Step)
    requires History(cfg, s) && Enabled(s, a)
    ensures History(cfg, Next(cfg, s, a))
  {
    if a.Call? || (a.Check? && Due(cfg, s)) {
      StepHeeds(cfg, s, a);
      HeedsKeeps(cfg, s, Next(cfg, s, a).seen[|s.seen|], Next(cfg, s, a));
    }
  }

  lemma CountedKept(cfg: Config, s: State, a: Step)
    requires Counted(cfg, s) && Enabled(s, a)
    ensures Counted(cfg, Next(cfg, s, a))
  {
    match a
    case Call(fails) => SeenSnoc(cfg, s.seen, if fails then CallFailed else Called(s.cond));
    case Check(reading) => CheckCounted(cfg, s, reading);
    case _ =>
  }

  lemma CheckCounted(cfg: Config, s: State, reading: Option<real>)
    requires Counted(cfg, s) && Enabled(s, Check(reading))
    ensures Counted(cfg, Next(cfg, s, Check(reading)))
  {
    Wraps(s.passes);
    assert Due(cfg, s) <==> cfg.HaveTimeout() && s.passes % 16 == 0;
    if reading.Some? {
      SeenSnoc(cfg, s.seen, Clock(reading.value));
    }
  }

  lemma {:induction false} SixteenthsIs(passes: nat)
    ensures Sixteenths(passes) == (passes + 15) / 16
  {
    if passes > 0 {
      SixteenthsIs(passes - 1);
    }
  }

  /** The wrap-around does not shift the passes that read the clock. */
  lemma Wraps(passes: nat)
    ensures (passes % WRAP + 1) % WRAP == (passes + 1) % WRAP
    ensures passes % WRAP % 16 == passes % 16
  {
    var q, r := passes / WRAP, passes % WRAP;
    assert passes == q * WRAP + r;
    SameSixteenth(passes, q * 0x1000_0000, r);
    if r + 1 == WRAP {
      assert passes + 1 == (q + 1) * WRAP;
    } else {
      assert passes + 1 == q * WRAP + (r + 1);
    }
  }

  lemma SameSixteenth(n: nat, q: nat, r: nat)
    requires n == 16 * q + r
    ensures n % 16 == r % 16
  {
  }

  lemma {:induction false} RunKeeps(cfg: Config, s: State, steps: seq<Step>, s': State)
    requires Watching(s) && History(cfg, s) && Counted(cfg, s) && Reaches(cfg, s, steps, s')
    ensures Watching(s') && History(cfg, s') && Counted(cfg, s')
    decreases |steps|
  {
    if steps != [] {
      WatchingKept(cfg, s, steps[0]);
      HistoryKept(cfg, s, steps[0]);
      CountedKept(cfg, s, steps[0]);
      RunKeeps(cfg, Next(cfg, s, steps[0]), steps[1..], s');
    }
  }

  // ----- every interleaving

  /** No wake-up is lost: if the loop sleeps and the condition is already true, the monitor has been
      triggered, and the loop can go on without the hardware timeout. */
  lemma NoLostWakeUp(cfg: Config, cond: bool, steps: seq<Step>, s: State)
    requires Reaches(cfg, Start(cond), steps, s) && s.pc.Wait? && s.cond
    ensures s.monitor == Triggered && Enabled(s, Wake(false))
  {
    RunKeeps(cfg, Start(cond), steps, s);
  }

  /** The loop stops at the first observation that decides, with what that observation decides: true
      after a true callback, false after a clock reading that reached the timeout, an exception after a
      failed call; everything seen before decided nothing. */
  lemma StopsAtFirstDecision(cfg: Config, cond: bool, steps: seq<Step>, s: State)
    requires Reaches(cfg, Start(cond), steps, s)
    ensures s.pc.Done? <==> !Undecided(cfg, s.seen)
    ensures s.pc.Done? ==>
              && s.seen != []
              && Decides(cfg, s.seen[|s.seen| - 1]) == Some(s.pc.outcome)
              && Undecided(cfg, s.seen[..|s.seen| - 1])
    ensures cfg.timeout <= 0.000000001 && s.pc.Done? ==> s.pc.outcome != ReturnFalse
  {
    RunKeeps(cfg, Start(cond), steps, s);
    if s.pc == Done(ReturnFalse) {
      var n := |s.seen| - 1;
      assert s.seen[n].Clock?;
      assert ClockReads(s.seen) > 0;
    }
  }

  /** With a timeout, the clock is read in every sixteenth pass, however often the counter wraps. */
  lemma ClockEverySixteenPasses(cfg: Config, cond: bool, steps: seq<Step>, s: State)
    requires Reaches(cfg, Start(cond), steps, s) && !s.pc.Done?
    ensures ClockReads(s.seen) == if cfg.timeout > 0.000000001 then (s.passes + 15) / 16 else 0
    ensures s.pc.Tick? ==> (Due(cfg, s) <==> cfg.timeout > 0.000000001 && s.passes % 16 == 0)
  {
    RunKeeps(cfg, Start(cond), steps, s);
    Wraps(s.passes);
    SixteenthsIs(s.passes);
  }

  // ----- what a pass consists of

  /** Callbacks so far. */
  function Calls(seen: seq<Seen>): nat {
    if seen == [] then 0
    else
      var last := seen[|seen| - 1];
      Calls(seen[..|seen| - 1]) + if last.Called? || last.CallFailed? then 1 else 0
  }

  /** The monitor is used only where there is one, and the fallback only where there is none; a monitor that was
      armed is waited on before the next pass. A finished pass has called back twice with a monitor, once
      without. */
  predicate Paced(cfg: Config, s: State) {
    && (s.pc.Arm? || s.pc.Recheck? || s.pc.Wait? ==> cfg.monitors)
    && (s.pc.Pause? ==> !cfg.monitors)
    && (s.pc.Arm? || s.pc.Recheck? || s.pc.Wait? || s.pc.Pause? ==> s.passes > 0)
    && (s.pc.Poll? || s.pc.Tick? || s.pc.Arm? || s.pc.Pause? ==> s.monitor == Idle)
    && (s.pc.Done? || Calls(s.seen) == CallsDue(cfg, s))
  }

  function CallsDue(cfg: Config, s: State): int {
    var finished := if cfg.monitors then 2 * s.passes else s.passes;
    if s.pc.Tick? then finished + 1
    else if s.pc.Arm? || s.pc.Recheck? then finished - 1
    else finished
  }

  lemma CallsSnoc(seen: seq<Seen>, o: Seen)
    ensures Calls(seen + [o]) == Calls(seen) + if o.Called? || o.CallFailed? then 1 else 0
  {
    assert (seen + [o])[..|seen|] == seen;
  }

  lemma PacedKept(cfg: Config, s: State, a: Step)
    requires Paced(cfg, s) && Enabled(s, a)
    ensures Paced(cfg, Next(cfg, s, a))
  {
    match a
    case Call(fails) => CallsSnoc(s.seen, if fails then CallFailed else Called(s.cond));
    case Check(reading) => CheckPaced(cfg, s, reading);
    case _ =>
  }

  lemma CheckPaced(cfg: Config, s: State, reading: Option<real>)
    requires Paced(cfg, s) && Enabled(s, Check(reading))
    ensures Paced(cfg, Next(cfg, s, Check(reading)))
  {
    if reading.Some? {
      CallsSnoc(s.seen, Clock(reading.value));
    }
  }

  lemma {:induction false} RunPaced(cfg: Config, s: State, steps: seq<Step>, s': State)
    requires Paced(cfg, s) && Reaches(cfg, s, steps, s')
    ensures Paced(cfg, s')
    decreases |steps|
  {
    if steps != [] {
      PacedKept(cfg, s, steps[0]);
      RunPaced(cfg, Next(cfg, s, steps[0]), steps[1..], s');
    }
  }

  /** The loop arms, checks again and sleeps only where there is a monitor, and pauses only where there is none;
      back at the start of a pass it has slept on a monitor it armed, and has called back twice per pass with a
      monitor, once without. */
  lemma MonitorDecides(cfg: Config, cond: bool, steps: seq<Step>, s: State)
    requires Reaches(cfg, Start(cond), steps, s)
    ensures s.pc.Arm? || s.pc.Recheck? || s.pc.Wait? ==> cfg.monitors
    ensures s.pc.Pause? ==> !cfg.monitors
    ensures s.pc.Poll? ==> s.monitor == Idle && Calls(s.seen) == if cfg.monitors then 2 * s.passes else s.passes
  {
    RunPaced(cfg, Start(cond), steps, s);
  }

  // ----- progress

  predicate OfLoop(a: Step) {
    !a.Store?
  }

  function LoopSteps(steps: seq<Step>): nat {
    if steps == [] then 0 else LoopSteps(steps[1..]) + if OfLoop(steps[0]) then 1 else 0
  }

  predicate KeepsTrue(steps: seq<Step>) {
    forall i :: 0 <= i < |steps| && steps[i].Store? ==> steps[i].cond
  }

  /** Steps the loop can still take once the condition stays true. */
  function Left(s: State): nat {
    match s.pc
    case Done(_) => 0
    case Poll => 1
    case Recheck => 1
    case Tick => 3
    case _ => 2
  }

  lemma {:induction false} Progress(cfg: Config, s: State, steps: seq<Step>, s': State)
    requires s.cond && KeepsTrue(steps) && Reaches(cfg, s, steps, s')
    ensures LoopSteps(steps) + Left(s') <= Left(s)
    decreases |steps|
  {
    if steps != [] {
      Progress(cfg, Next(cfg, s, steps[0]), steps[1..], s');
    }
  }

  /** The loop itself is never stuck: it has a step in every state but the last. */
  lemma NeverStuck(s: State)
    ensures (exists a :: OfLoop(a) && Enabled(s, a)) <==> !s.pc.Done?
  {
    var a :=
      match s.pc
      case Poll => Call(false)
      case Recheck => Call(false)
      case Tick => Check(None)
      case Arm => ArmMonitor
      case Wait => Wake(true)
      case Pause => Resume
      case Done(_) => Store(true);
    assert !s.pc.Done? ==> OfLoop(a) && Enabled(s, a);
  }

  /** Once the condition is true and stays so, the loop takes at most three more steps: whatever the
      writer does in between, it has stopped by then. */
  lemma StopsSoon(cfg: Config, cond: bool, before: seq<Step>, s: State, steps: seq<Step>, s': State)
    requires Reaches(cfg, Start(cond), before, s) && s.cond && KeepsTrue(steps) && Reaches(cfg, s, steps, s')
    ensures LoopSteps(steps) <= 3
    ensures LoopSteps(steps) == 3 ==> s'.pc.Done?
    ensures s'.pc == Wait ==> s'.monitor == Triggered
  {
    Progress(cfg, s, steps, s');
    RunKeeps(cfg, Start(cond), before, s);
    RunKeeps(cfg, s, steps, s');
    StaysTrue(cfg, s, steps, s');
  }

  lemma {:induction false} StaysTrue(cfg: Config, s: State, steps: seq<Step>, s': State)
    requires s.cond && KeepsTrue(steps) && Reaches(cfg, s, steps, s')
    ensures s'.cond
    decreases |steps|
  {
    if steps != [] {
      StaysTrue(cfg, Next(cfg, s, steps[0]), steps[1..], s');
    }
  }
}
