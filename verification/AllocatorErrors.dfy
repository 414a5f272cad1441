/** The sticky error code: what it holds after every entry point, over every run, and what that means
    for the next call. */
module AllocatorErrors {
  import opened Sums
  import opened Driver
  import opened Mapping
  import opened Chunking
  import opened Allocator
  import opened AllocatorRuns
  import opened AllocatorLimits

  /** The last failing status, or `err` if none failed. */
  function LastError(ss: seq<int>, err: int): int {
    if ss == [] then err
    else if ss[|ss| - 1] != OK then ss[|ss| - 1]
    else LastError(ss[..|ss| - 1], err)
  }

  /** Status `i` is the last one that failed. */
  predicate LastAt(ss: seq<int>, i: nat) {
    i < |ss| && ss[i] != OK && forall j :: i < j < |ss| ==> ss[j] == OK
  }

  /** `err` stays exactly when every status is OK; otherwise it is the last one that failed. */
  lemma {:induction false} LastErrorIs(ss: seq<int>, err: int, i: nat)
    ensures (forall j :: 0 <= j < |ss| ==> ss[j] == OK) ==> LastError(ss, err) == err
    ensures LastAt(ss, i) ==> LastError(ss, err) == ss[i]
    decreases |ss|
  {
    if ss != [] && ss[|ss| - 1] == OK {
      var front := ss[..|ss| - 1];
      assert LastAt(ss, i) ==> LastAt(front, i);
      LastErrorIs(front, err, i);
    }
  }

  lemma {:induction false} LastErrorAppend(ss: seq<int>, ts: seq<int>, err: int)
    ensures LastError(ss + ts, err) == LastError(ts, LastError(ss, err))
    decreases |ts|
  {
    if ts == [] {
      assert ss + ts == ss;
    } else {
      assert (ss + ts)[..|ss + ts| - 1] == ss + ts[..|ts| - 1];
      LastErrorAppend(ss, ts[..|ts| - 1], err);
    }
  }

  // ----- the checked calls of a step, in order

  /** Of `create_and_map`: where creation ended, where mapping ended, and setting the access. On top of an
      old error the first creation is the last call. */
  function MapChecked(d: Device, f: Fate, err: int, base: nat, sizes: seq<nat>): seq<int> {
    if err != OK then [if sizes == [] then DoSetAccess(d, f).1 else DoCreate(d, f, sizes[0]).1]
    else
      var (e, s, hs) := CreateAll(d, f, sizes);
      if s != OK then [s]
      else
        var (g, t, _) := MapAll(e, f, base, sizes, hs);
        if t != OK then [s, t] else [s, t, DoSetAccess(g, f).1]
  }

  /** Of tearing down: only the first failure is checked, after everything was called. */
  function TeardownChecked(w: World, c: Config, a: nat): seq<int>
    requires a in w.table
  {
    [FirstError(Teardown(w.device, c.fate, a, w.table[a].sizes, w.table[a].cells))]
  }

  /** Of placing a block in its reservation, and of giving that back on failure. */
  function PlaceChecked(d: Device, f: Fate, a: nat, aligned: nat, sizes: seq<nat>): seq<int> {
    var o := CreateAndMap(d, f, OK, a, sizes, seq(|sizes|, _ => 0));
    MapChecked(d, f, OK, a, sizes)
    + if LastError(MapChecked(d, f, OK, a, sizes), OK) == OK then [] else [DoAddressFree(o.device, f, a, aligned).1]
  }

  /** Of an allocation. */
  function MallocChecked(w: World, c: Config, size: nat, hostOk: bool): seq<int>
    requires NoWrap(size, c.granularity, c.setting)
  {
    var f, aligned, sizes := c.fate, AlignUp(size, c.granularity), Plan(size, c.granularity, c.setting);
    var (d1, s1) := DoGranularity(w.device, f);
    if w.err != OK || s1 != OK then [s1]
    else
      var (d2, s2, a) := ReserveRocm(d1, f, aligned, c.granularity);
      [s1, s2] + if s2 != OK || !hostOk then [] else PlaceChecked(d2, f, a, aligned, sizes)
  }

  function CheckedOf(w: World, c: Config, op: Op): seq<int>
    requires Accepts(w, c, op)
  {
    match op
    case MallocOp(size, hostOk) => MallocChecked(w, c, size, hostOk)
    case SleepOp(a) => TeardownChecked(w, c, a)
    case WakeOp(a) => MapChecked(w.device, c.fate, w.err, a, w.table[a].sizes)
    case FreeOp(a, size) =>
      var b := w.table[a];
      var d := UnmapAndRelease(w.device, c.fate, w.err, a, b.sizes, b.cells).0;
      TeardownChecked(w, c, a) + [DoAddressFree(d, c.fate, a, size).1]
  }

  // ----- one step

  lemma MapErr(d: Device, f: Fate, err: int, base: nat, sizes: seq<nat>, cells: seq<nat>)
    requires |cells| == |sizes|
    ensures CreateAndMap(d, f, err, base, sizes, cells).err == LastError(MapChecked(d, f, err, base, sizes), err)
  {
    var ss := MapChecked(d, f, err, base, sizes);
    SnocError([], ss[0], err);
    assert [] + [ss[0]] == [ss[0]];
    if |ss| > 1 {
      SnocError([ss[0]], ss[1], err);
      assert [ss[0]] + [ss[1]] == [ss[0], ss[1]];
    }
    if |ss| > 2 {
      SnocError([ss[0], ss[1]], ss[2], err);
      assert [ss[0], ss[1]] + [ss[2]] == ss;
    }
  }

  lemma TeardownErr(w: World, c: Config, a: nat)
    requires a in w.table
    ensures UnmapAndRelease(w.device, c.fate, w.err, a, w.table[a].sizes, w.table[a].cells).1
         == LastError(TeardownChecked(w, c, a), w.err)
  {
  }

  lemma SnocError(ss: seq<int>, s: int, err: int)
    ensures LastError(ss + [s], err) == Checked(LastError(ss, err), s)
  {
    assert (ss + [s])[..|ss|] == ss;
  }

  lemma PlaceErr(d: Device, f: Fate, a: nat, aligned: nat, sizes: seq<nat>)
    ensures var o := CreateAndMap(d, f, OK, a, sizes, seq(|sizes|, _ => 0));
            LastError(PlaceChecked(d, f, a, aligned, sizes), OK) ==
            if o.err == OK then OK else Checked(o.err, DoAddressFree(o.device, f, a, aligned).1)
  {
    var cells := seq(|sizes|, _ => 0);
    var o, ss := CreateAndMap(d, f, OK, a, sizes, cells), MapChecked(d, f, OK, a, sizes);
    MapErr(d, f, OK, a, sizes, cells);
    assert ss + [] == ss;
    SnocError(ss, DoAddressFree(o.device, f, a, aligned).1, OK);
  }

  lemma MallocErr(w: World, c: Config, size: nat, hostOk: bool)
    requires NoWrap(size, c.granularity, c.setting)
    ensures Malloc(w, c, size, hostOk).0.err == LastError(MallocChecked(w, c, size, hostOk), w.err)
  {
    var f, aligned, sizes := c.fate, AlignUp(size, c.granularity), Plan(size, c.granularity, c.setting);
    var (d1, s1) := DoGranularity(w.device, f);
    SnocError([], s1, w.err);
    if w.err == OK && s1 == OK {
      var (d2, s2, a) := ReserveRocm(d1, f, aligned, c.granularity);
      SnocError([s1], s2, w.err);
      PlaceErr(d2, f, a, aligned, sizes);
      LastErrorAppend([s1, s2], MallocChecked(w, c, size, hostOk)[2..], w.err);
    }
  }

  /** `python_unmap_and_release` and `python_create_and_map` clear the code. */
  predicate Clears(op: Op) {
    op.SleepOp? || op.WakeOp?
  }

  /** The entry point raises. */
  predicate Raises(w: World, c: Config, op: Op)
    requires Accepts(w, c, op)
  {
    match op
    case SleepOp(a) => Sleep(w, c, a).1
    case WakeOp(a) => Wake(w, c, a).1
    case _ => false
  }

  /** The code after one step, exactly: a sleep or a wake-up raises if the code is set at its end and
      clears it; an allocation or a free leaves the last failing status of its checked calls, or the
      code it found. */
  lemma StepErr(w: World, c: Config, op: Op)
    requires Accepts(w, c, op)
    ensures Clears(op) ==> Step(w, c, op).err == OK && Raises(w, c, op) == (LastError(CheckedOf(w, c, op), w.err) != OK)
    ensures !Clears(op) ==> Step(w, c, op).err == LastError(CheckedOf(w, c, op), w.err)
  {
    match op
    case MallocOp(size, hostOk) => MallocErr(w, c, size, hostOk);
    case SleepOp(a) => TeardownErr(w, c, a);
    case WakeOp(a) => MapErr(w.device, c.fate, w.err, a, w.table[a].sizes, w.table[a].cells);
    case FreeOp(a, size) =>
      var b := w.table[a];
      TeardownErr(w, c, a);
      var d := UnmapAndRelease(w.device, c.fate, w.err, a, b.sizes, b.cells).0;
      SnocError(TeardownChecked(w, c, a), DoAddressFree(d, c.fate, a, size).1, w.err);
  }

  // ----- whole runs

  /** The statuses of all checked calls since the last sleep or wake-up before step `i`. */
  ghost function Since(c: Config, ops: seq<Op>, ws: seq<World>, i: nat): seq<int>
    requires AnyRun(c, ops, ws) && i <= |ops|
  {
    if i == 0 || Clears(ops[i - 1]) then []
    else
      assert StepAt(c, ops, ws, i - 1);
      Since(c, ops, ws, i - 1) + CheckedOf(ws[i - 1], c, ops[i - 1])
  }

  /** The code at point `i`. */
  ghost predicate LastSince(c: Config, ops: seq<Op>, ws: seq<World>, i: nat)
    requires AnyRun(c, ops, ws) && i <= |ops|
  {
    ws[i].err == LastError(Since(c, ops, ws, i), OK)
  }

  lemma LastSinceNext(c: Config, ops: seq<Op>, ws: seq<World>, j: nat)
    requires AnyRun(c, ops, ws) && j < |ops| && LastSince(c, ops, ws, j)
    ensures LastSince(c, ops, ws, j + 1)
  {
    assert StepAt(c, ops, ws, j);
    StepErr(ws[j], c, ops[j]);
    if !Clears(ops[j]) {
      LastErrorAppend(Since(c, ops, ws, j), CheckedOf(ws[j], c, ops[j]), OK);
    }
  }

  /** At every point of every run the code is the last failing status of the checked calls made since
      the last sleep or wake-up, or OK. */
  lemma RunErr(c: Config, ops: seq<Op>, ws: seq<World>, i: nat)
    requires AnyRun(c, ops, ws) && i <= |ops|
    ensures ws[i].err == LastError(Since(c, ops, ws, i), OK)
  {
    for j := 0 to i
      invariant LastSince(c, ops, ws, j)
    {
      LastSinceNext(c, ops, ws, j);
    }
  }

  /** Step `j` is an allocation or a free that made a failing checked call. */
  ghost predicate FailedAt(c: Config, ops: seq<Op>, ws: seq<World>, j: nat)
    requires AnyRun(c, ops, ws) && j < |ops|
  {
    assert StepAt(c, ops, ws, j);
    !Clears(ops[j]) && LastError(CheckedOf(ws[j], c, ops[j]), OK) != OK
  }

  /** No sleep and no wake-up between step `j` and point `i`. */
  predicate Uncleared(ops: seq<Op>, j: nat, i: nat)
    requires i <= |ops|
  {
    forall k :: j <= k < i ==> !Clears(ops[k])
  }

  /** The code is set exactly when some allocation or free failed a checked call and neither a sleep nor
      a wake-up came after. */
  lemma {:induction false} StuckIff(c: Config, ops: seq<Op>, ws: seq<World>, i: nat)
    requires AnyRun(c, ops, ws) && i <= |ops|
    ensures ws[i].err != OK <==> exists j :: 0 <= j < i && FailedAt(c, ops, ws, j) && Uncleared(ops, j, i)
  {
    var clears := seq(|ops|, k requires 0 <= k < |ops| => Clears(ops[k]));
    var fails := seq(|ops|, k requires 0 <= k < |ops| => FailedAt(c, ops, ws, k));
    var raised := seq(|ws|, k requires 0 <= k < |ws| => ws[k].err != OK);
    forall p: nat | p < |ops| ensures LatchAt(clears, fails, raised, p) {
      StuckStep(c, ops, ws, p);
    }
    Latch(clears, fails, raised, i);
    if j :| 0 <= j < i && fails[j] && !(exists k :: j <= k < i && clears[k]) {
      assert FailedAt(c, ops, ws, j);
      assert Uncleared(ops, j, i) by {
        forall k | j <= k < i ensures !Clears(ops[k]) {
          assert !clears[k];
        }
      }
    }
    if j :| 0 <= j < i && FailedAt(c, ops, ws, j) && Uncleared(ops, j, i) {
      assert fails[j];
    }
  }

  /** A latch at step `p`. */
  predicate LatchAt(clears: seq<bool>, fails: seq<bool>, raised: seq<bool>, p: nat) {
    p < |clears| == |fails| < |raised| && (raised[p + 1] == (!clears[p] && (fails[p] || raised[p])))
  }

  /** A latch is set exactly when something set it and nothing cleared it since. */
  lemma {:induction false} Latch(clears: seq<bool>, fails: seq<bool>, raised: seq<bool>, i: nat)
    requires |clears| == |fails| && |raised| == |fails| + 1 && i <= |fails| && !raised[0]
    requires forall p: nat :: p < |fails| ==> LatchAt(clears, fails, raised, p)
    ensures raised[i] <==> exists j :: 0 <= j < i && fails[j] && !(exists k :: j <= k < i && clears[k])
    decreases i
  {
    if i > 0 {
      var p := i - 1;
      assert LatchAt(clears, fails, raised, p);
      Latch(clears, fails, raised, p);
      if raised[i] {
        var j :| 0 <= j < i && fails[j] && !(exists k :: j <= k < p && clears[k]);
        assert !(exists k :: j <= k < i && clears[k]);
      }
      if j :| 0 <= j < i && fails[j] && !(exists k :: j <= k < i && clears[k]) {
        assert !clears[p];
      }
    }
  }

  lemma StuckStep(c: Config, ops: seq<Op>, ws: seq<World>, p: nat)
    requires AnyRun(c, ops, ws) && p < |ops|
    ensures ws[p + 1].err != OK <==> !Clears(ops[p]) && (FailedAt(c, ops, ws, p) || ws[p].err != OK)
  {
    assert StepAt(c, ops, ws, p);
    StepErr(ws[p], c, ops[p]);
    LastErrorFrom(CheckedOf(ws[p], c, ops[p]), ws[p].err);
  }

  lemma {:induction false} LastErrorFrom(ss: seq<int>, err: int)
    ensures LastError(ss, err) == if LastError(ss, OK) != OK then LastError(ss, OK) else err
    decreases |ss|
  {
    if ss != [] && ss[|ss| - 1] == OK {
      LastErrorFrom(ss[..|ss| - 1], err);
    }
  }

  // ----- what it means for the next call

  /** An allocation returns null exactly when the host fails, a checked call of it fails, or the code
      was set before; in the last case it also leaves the code set and the table alone. */
  lemma NullIff(w: World, c: Config, size: nat, hostOk: bool)
    requires NoWrap(size, c.granularity, c.setting)
    ensures Malloc(w, c, size, hostOk).1 == 0 <==>
            !hostOk || w.err != OK || LastError(MallocChecked(w, c, size, hostOk), OK) != OK
    ensures w.err != OK ==> Malloc(w, c, size, hostOk).0.err != OK && Malloc(w, c, size, hostOk).0.table == w.table
  {
    MallocErr(w, c, size, hostOk);
    LastErrorFrom(MallocChecked(w, c, size, hostOk), w.err);
  }

  /** No call of a wake-up would fail now. */
  predicate Wakeable(w: World, c: Config, a: nat)
    requires a in w.table
  {
    LastError(MapChecked(w.device, c.fate, OK, a, w.table[a].sizes), OK) == OK
  }

  /** A safe wake-up that raised can be repeated: the code is clear and the block is still asleep, so if
      no call fails this time, it does not raise and leaves the block awake. */
  lemma WakeRetry(w: World, c: Config, a: nat)
    requires Inv(w) && Safe(w, c, WakeOp(a)) && Wake(w, c, a).1
    ensures var again := Wake(w, c, a).0;
            && Inv(again) && again.err == OK && IsLive(again.table, a) && !IsAwake(again.table, a)
            && (Wakeable(again, c, a) ==>
                  && !Wake(again, c, a).1 && IsAwake(Wake(again, c, a).0.table, a)
                  && Inv(Wake(again, c, a).0))
  {
    var again := Wake(w, c, a).0;
    WakeKeeps(w, c, a);
    if Wakeable(again, c, a) {
      WakesUp(again, c, a);
    }
  }

  /** With a clear code and no failing call, a sleeping block wakes up. */
  lemma WakesUp(w: World, c: Config, a: nat)
    requires Inv(w) && w.err == OK && IsLive(w.table, a) && !IsAwake(w.table, a) && Wakeable(w, c, a)
    ensures !Wake(w, c, a).1 && IsAwake(Wake(w, c, a).0.table, a) && Inv(Wake(w, c, a).0)
  {
    MapErr(w.device, c.fate, OK, a, w.table[a].sizes, w.table[a].cells);
    if FirstError(Aftermath(w.device, c.fate, a, w.table[a].sizes)) != OK {
      AsleepIsVacant(w, a);
      HalfDone(w.device, c.fate, a, w.table[a].sizes, w.table[a].cells);
    }
    WakeKeeps(w, c, a);
  }

  /** It does so exactly then. */
  lemma WakesIff(w: World, c: Config, a: nat)
    requires Inv(w) && w.err == OK && IsLive(w.table, a) && !IsAwake(w.table, a)
    ensures |w.table[a].cells| == |w.table[a].sizes| && (Wakeable(w, c, a) <==> !Wake(w, c, a).1)
    ensures Wakeable(w, c, a) ==> IsAwake(Wake(w, c, a).0.table, a) && Inv(Wake(w, c, a).0)
  {
    assert BlockOk(w.table[a]);
    MapErr(w.device, c.fate, OK, a, w.table[a].sizes, w.table[a].cells);
    if Wakeable(w, c, a) {
      WakesUp(w, c, a);
    }
  }

  /** Attempt `k` is a safe wake-up of `a` that raised. */
  predicate FailedAttempt(c: Config, a: nat, vs: seq<World>, k: nat)
    requires k + 1 < |vs|
  {
    Safe(vs[k], c, WakeOp(a)) && Wake(vs[k], c, a) == (vs[k + 1], true)
  }

  /** However many safe wake-ups raised, the first one in which no call fails succeeds. */
  lemma {:induction false} RetriesSucceed(c: Config, a: nat, vs: seq<World>, n: nat)
    requires n < |vs| && Inv(vs[0]) && vs[0].err == OK && IsLive(vs[0].table, a) && !IsAwake(vs[0].table, a)
    requires forall k :: 0 <= k < n ==> FailedAttempt(c, a, vs, k)
    ensures Inv(vs[n]) && vs[n].err == OK && IsLive(vs[n].table, a) && !IsAwake(vs[n].table, a)
    ensures |vs[n].table[a].cells| == |vs[n].table[a].sizes| && (Wakeable(vs[n], c, a) <==> !Wake(vs[n], c, a).1)
    ensures Wakeable(vs[n], c, a) ==> IsAwake(Wake(vs[n], c, a).0.table, a) && Inv(Wake(vs[n], c, a).0)
    decreases n
  {
    if n > 0 {
      RetriesSucceed(c, a, vs, n - 1);
      assert FailedAttempt(c, a, vs, n - 1);
      WakeRetry(vs[n - 1], c, a);
    }
    WakesIff(vs[n], c, a);
  }

  // ----- which call failed

  /** The status with which creation ends is that of its last call, and no earlier one failed. */
  lemma {:induction false} CreateAllStatus(d: Device, f: Fate, sizes: seq<nat>)
    ensures var (e, s, hs) := CreateAll(d, f, sizes);
            && e.calls == d.calls + |hs| + (if s == OK then 0 else 1)
            && (s != OK ==> s == f.status(Create, e.calls - 1))
            && (forall n :: d.calls <= n < d.calls + |hs| ==> f.status(Create, n) == OK)
    decreases |sizes|
  {
    if sizes != [] {
      CreateAllStatus(d, f, sizes[..|sizes| - 1]);
    }
  }

  /** So is that with which mapping ends, where the mapping is legal. */
  lemma {:induction false} MapAllStatus(d: Device, f: Fate, base: nat, sizes: seq<nat>, hs: seq<nat>)
    requires Mappable(d, base, sizes, hs)
    ensures var (e, s, k) := MapAll(d, f, base, sizes, hs);
            && e.calls == d.calls + k + (if s == OK then 0 else 1)
            && (s != OK ==> s == f.status(MapChunk, e.calls - 1))
            && (forall n :: d.calls <= n < d.calls + k ==> f.status(MapChunk, n) == OK)
    decreases |sizes|
  {
    if sizes != [] {
      var n := |sizes| - 1;
      MappablePrefix(d, base, sizes, hs);
      MapAllStatus(d, f, base, sizes[..n], hs[..n]);
      LastMapLegal(d, f, base, sizes, hs);
    }
  }

  lemma LastMapLegal(d: Device, f: Fate, base: nat, sizes: seq<nat>, hs: seq<nat>)
    requires Mappable(d, base, sizes, hs) && sizes != []
    ensures var n := |sizes| - 1;
            var (e, s, k) := MapAll(d, f, base, sizes[..n], hs[..n]);
            var (e', s') := DoMap(e, f, base + Sum(sizes[..n]), sizes[n], hs[n]);
            s == OK ==> e'.calls == e.calls + 1 && s' == f.status(MapChunk, e.calls)
  {
    var n := |sizes| - 1;
    MappablePrefix(d, base, sizes, hs);
    MapAllAdds(d, f, base, sizes[..n], hs[..n]);
    assert sizes[..n][..n] == sizes[..n] && hs[..n][..n] == hs[..n];
    if MapAll(d, f, base, sizes[..n], hs[..n]).1 == OK {
      MapOneLegal(d, MapAll(d, f, base, sizes[..n], hs[..n]).0, base, sizes, hs);
    }
  }

  /** A reservation succeeds exactly if the driver accepts the aligned attempt, or, with an alignment
      asked for, gives an address in the second one that turns out aligned. */
  lemma ReserveRocmIff(d: Device, f: Fate, size: nat, alignment: nat)
    ensures ReserveRocm(d, f, size, alignment).1 == OK <==>
            || (Obliges(d, f, size, d.calls) && Fits(f.place(d.calls), alignment))
            || (alignment != 0 && Obliges(d, f, size, d.calls + 1) && Fits(f.place(d.calls + 1), alignment))
    ensures var (e, s, a) := ReserveRocm(d, f, size, alignment);
            s == OK ==> a > 0 && Fits(a, alignment) && Unreserved(d, a, size) && e.reserved == d.reserved[a := size]
    ensures var (e, s, a) := ReserveRocm(d, f, size, alignment);
            s != OK ==> s == if alignment == 0 then Refusal(f, d.calls)
                             else if Obliges(d, f, size, d.calls + 1) then 801
                             else Refusal(f, d.calls + 1)
  {
  }

  /** With which status call number `n` refuses a reservation: its own, or out of memory if it offers no room. */
  function Refusal(f: Fate, n: nat): int {
    if f.status(Reserve, n) != OK then f.status(Reserve, n) else OUT_OF_MEMORY
  }

  /** Call number `n` reserves what it finds. */
  predicate Obliges(d: Device, f: Fate, size: nat, n: nat) {
    f.status(Reserve, n) == OK && f.place(n) > 0 && Unreserved(d, f.place(n), size)
  }

  predicate Fits(a: nat, alignment: nat) {
    alignment == 0 || a % alignment == 0
  }

  /** A returned block has the size asked for, rounded up to the next multiple of the granularity and no
      farther, and the planned chunks. */
  lemma MallocSize(w: World, c: Config, size: nat, hostOk: bool)
    requires NoWrap(size, c.granularity, c.setting) && Malloc(w, c, size, hostOk).1 != 0
    ensures var (w', p) := Malloc(w, c, size, hostOk);
            && p in w'.table && w'.table[p].sizes == Plan(size, c.granularity, c.setting)
            && size <= w'.table[p].size < size + c.granularity && w'.table[p].size % c.granularity == 0
            && p % c.granularity == 0
  {
    AlignUpExact(size, c.granularity);
    ReserveRocmIff(DoGranularity(w.device, c.fate).0, c.fate, AlignUp(size, c.granularity), c.granularity);
  }

  // ----- what is left in the table

  /** Handles are the numbers of the calls that created them. */
  lemma {:induction false} CreatedHandles(d: Device, f: Fate, sizes: seq<nat>, i: nat)
    requires i < |CreateAll(d, f, sizes).2|
    ensures CreateAll(d, f, sizes).2[i] == d.calls + i
    decreases |sizes|
  {
    var n := |sizes| - 1;
    CreateAllStatus(d, f, sizes[..n]);
    if i < |CreateAll(d, f, sizes[..n]).2| {
      CreatedHandles(d, f, sizes[..n], i);
    }
  }

  /** The cell was written by the wake-up: it holds the handle of the chunk's own creation. */
  predicate Rewritten(before: seq<nat>, after: seq<nat>, calls: nat, created: nat, i: nat)
    requires i < |before| == |after|
  {
    after[i] == if i < created then calls + i else before[i]
  }

  /** A wake-up writes each handle it creates into its cell and leaves it there, also when it fails and has
      released it again; on top of an old error only the first can be written. */
  lemma WakeCells(w: World, c: Config, a: nat, i: nat)
    requires a in w.table && |w.table[a].cells| == |w.table[a].sizes| && i < |w.table[a].cells|
    ensures var b, w' := w.table[a], Wake(w, c, a).0;
            var created := if w.err == OK then |CreateAll(w.device, c.fate, b.sizes).2|
                           else if c.fate.status(Create, w.device.calls) == OK then 1 else 0;
            && a in w'.table && |w'.table[a].cells| == |b.cells|
            && Rewritten(b.cells, w'.table[a].cells, w.device.calls, created, i)
  {
    var b := w.table[a];
    if w.err == OK && i < |CreateAll(w.device, c.fate, b.sizes).2| {
      CreatedHandles(w.device, c.fate, b.sizes, i);
    }
  }

  /** The block an operation is about; an allocation is about none that is there yet. */
  predicate About(w: World, c: Config, op: Op, x: nat)
    requires Accepts(w, c, op)
  {
    if op.MallocOp? then x in Step(w, c, op).table && x !in w.table else x == op.a
  }

  /** Other entries of the table are left alone; sleeping and waking keep a block's sizes, and sleeping its
      cells too. */
  lemma TableFrame(w: World, c: Config, op: Op, x: nat)
    requires Inv(w) && Accepts(w, c, op)
    ensures IsLive(w.table, x) && !About(w, c, op, x) ==>
              x in Step(w, c, op).table && Step(w, c, op).table[x] == w.table[x]
    ensures Clears(op) && x == op.a ==>
              && x in Step(w, c, op).table && Step(w, c, op).table[x].size == w.table[x].size
              && Step(w, c, op).table[x].sizes == w.table[x].sizes
    ensures op.SleepOp? && x == op.a ==> Step(w, c, op).table[x].cells == w.table[x].cells
  {
    if op.MallocOp? {
      var (d1, s1) := DoGranularity(w.device, c.fate);
      TickKeeps(w, d1, OK);
      if Checked(w.err, s1) == OK {
        MallocReserved(World(d1, OK, w.table), c, op.size);
      }
    }
  }
}
