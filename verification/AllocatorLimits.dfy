/** Where safety of the allocator ends: each condition of a safe call is needed, call by call and over
    whole runs. */
module AllocatorLimits {
  import opened Sums
  import opened Driver
  import opened Mapping
  import opened Chunking
  import opened Allocator
  import opened AllocatorRuns

  // ----- refused calls

  /** Unmapping a range that holds no mapping is refused chunk by chunk. */
  lemma {:induction false} UnmapVacantRefused(d: Device, f: Fate, base: nat, sizes: seq<nat>)
    requires Positive(sizes) && Solid(d) && Unmapped(d, base, Sum(sizes))
    ensures UnmapAll(d, f, base, sizes).0 == d.(calls := d.calls + |sizes|, violations := d.violations + |sizes|)
    decreases |sizes|
  {
    if sizes != [] {
      var n := |sizes| - 1;
      assert Unmapped(d, base, Sum(sizes[..n])) by {
        forall k | k in d.mapped ensures Apart(base, Sum(sizes[..n]), k, d.mapped[k].size) {
          assert Apart(base, Sum(sizes), k, d.mapped[k].size);
        }
      }
      UnmapVacantRefused(d, f, base, sizes[..n]);
      assert base + Sum(sizes[..n]) !in d.mapped;
    }
  }

  /** Releasing counts refusals and maps nothing. */
  lemma {:induction false} ReleaseOnlyReleases(d: Device, f: Fate, hs: seq<nat>)
    ensures var e := ReleaseAll(d, f, hs).0;
            && d.violations <= e.violations && e.mapped == d.mapped && e.reserved == d.reserved && e.live <= d.live
    decreases |hs|
  {
    if hs != [] {
      ReleaseOnlyReleases(d, f, hs[..|hs| - 1]);
    }
  }

  lemma {:induction false} UnmapCounts(d: Device, f: Fate, base: nat, sizes: seq<nat>)
    ensures d.violations <= UnmapAll(d, f, base, sizes).0.violations
    ensures UnmapAll(d, f, base, sizes).0.live == d.live
    decreases |sizes|
  {
    if sizes != [] {
      UnmapCounts(d, f, base, sizes[..|sizes| - 1]);
    }
  }

  /** Releasing a handle that is not live is refused, whoever held it before. */
  lemma {:induction false} ReleaseDeadRefused(d: Device, f: Fate, hs: seq<nat>, i: nat)
    requires i < |hs| && hs[i] !in d.live
    ensures ReleaseAll(d, f, hs).0.violations > d.violations
    decreases |hs|
  {
    var n := |hs| - 1;
    ReleaseOnlyReleases(d, f, hs[..n]);
    if i < n {
      ReleaseDeadRefused(d, f, hs[..n], i);
    }
  }

  /** Mapping over a mapping is refused at the first chunk. */
  lemma MapOccupiedRefused(d: Device, f: Fate, base: nat, sizes: seq<nat>, hs: seq<nat>)
    requires |hs| == |sizes| > 0 && base in d.mapped && d.mapped[base].size > 0 && sizes[0] > 0
    ensures MapAll(d, f, base, sizes, hs) == (Refused(d), INVALID, 0)
  {
    assert sizes[..1][..0] == [] && hs[..1][..0] == [];
    assert !Apart(base, sizes[0], base, d.mapped[base].size);
    assert MapAll(d, f, base, sizes[..1], hs[..1]) == (Refused(d), INVALID, 0);
    MapAllStops(d, f, base, sizes, hs, 1);
  }

  // ----- sleeping

  /** Tearing down a sleeping block: every unmapping is refused. */
  lemma TeardownAsleepRefused(w: World, c: Config, a: nat)
    requires Inv(w) && IsLive(w.table, a) && !IsAwake(w.table, a)
    ensures var b := w.table[a];
            UnmapAndRelease(w.device, c.fate, w.err, a, b.sizes, b.cells).0.violations > 0
  {
    var b := w.table[a];
    AsleepIsVacant(w, a);
    UnmapVacantRefused(w.device, c.fate, a, b.sizes);
    ReleaseOnlyReleases(UnmapAll(w.device, c.fate, a, b.sizes).0, c.fate, b.cells);
    assert b.sizes != [];
  }

  /** What the invariant says is mapped and live depends on the awake blocks alone. */
  lemma Determined(w: World, w': World)
    requires Inv(w) && Inv(w') && SameAwake(w.table, w'.table)
    ensures w'.device.mapped == w.device.mapped && w'.device.live == w.device.live
  {
    forall x ensures AwakeIn(w.table, w'.table, x) && AwakeIn(w'.table, w.table, x) {
    }
    MappedIncluded(w, w');
    MappedIncluded(w', w);
    LiveIncluded(w, w');
    LiveIncluded(w', w);
  }

  /** A block awake in the one table is the same in the other. */
  predicate AwakeIn(t: map<nat, Block>, t': map<nat, Block>, x: nat) {
    IsAwake(t, x) ==> IsAwake(t', x) && t'[x] == t[x]
  }

  lemma MappedIncluded(w: World, w': World)
    requires ChunksOwned(w.device, w.table) && AllBacked(w.device, w.table) && AllBacked(w'.device, w'.table)
    requires forall x :: AwakeIn(w.table, w'.table, x)
    ensures SubMap(w.device.mapped, w'.device.mapped)
  {
    forall k | k in w.device.mapped ensures k in w'.device.mapped && w'.device.mapped[k] == w.device.mapped[k] {
      var x :| OwnsChunk(w.table, x, k);
      assert AwakeIn(w.table, w'.table, x);
      ChunkCarried(w, w', x, k);
    }
  }

  lemma ChunkCarried(w: World, w': World, x: nat, k: nat)
    requires OwnsChunk(w.table, x, k) && x in w'.table && w'.table[x] == w.table[x]
    requires Backed(w.device, w.table, x) && Backed(w'.device, w'.table, x)
    ensures k in w.device.mapped && k in w'.device.mapped && w'.device.mapped[k] == w.device.mapped[k]
  {
    assert ChunksOf(w'.table, x) == ChunksOf(w.table, x);
  }

  lemma LiveIncluded(w: World, w': World)
    requires HandlesOwned(w.device, w.table) && AllBacked(w'.device, w'.table)
    requires forall x :: AwakeIn(w.table, w'.table, x)
    ensures w.device.live <= w'.device.live
  {
    forall h | h in w.device.live ensures h in w'.device.live {
      var x :| OwnsHandle(w.table, x, h);
      assert AwakeIn(w.table, w'.table, x) && Backed(w'.device, w'.table, x);
    }
  }

  /** The world after a teardown in which nothing failed, with the same number of calls made. */
  ghost function Torn(w: World, a: nat, calls: nat): World
    requires a in w.table
  {
    World(w.device.(live := w.device.live - Members(w.table[a].cells),
                    mapped := w.device.mapped - ChunksOf(w.table, a).Keys, calls := calls),
          OK, w.table[a := w.table[a].(phase := Asleep)])
  }

  /** A failed unmap or release leaves a mapping or a handle behind. */
  lemma TeardownResidue(d: Device, f: Fate, err: int, base: nat, sizes: seq<nat>, cells: seq<nat>)
    requires |sizes| == |cells| && Positive(sizes)
    requires SubMap(Layout(base, sizes, cells), d.mapped) && Distinct(cells) && Members(cells) <= d.live
    ensures var g := UnmapAndRelease(d, f, err, base, sizes, cells).0;
            && g == d.(live := g.live, mapped := g.mapped, calls := g.calls) && d.calls <= g.calls
            && (g.mapped == d.mapped - Layout(base, sizes, cells).Keys <==>
                FirstError(UnmapAll(d, f, base, sizes).1) == OK)
            && (g.live == d.live - Members(cells) && g.mapped == d.mapped - Layout(base, sizes, cells).Keys <==>
                FirstError(Teardown(d, f, base, sizes, cells)) == OK)
  {
    UnmapAllRemoves(d, f, base, sizes, cells);
    var (e, ss) := UnmapAll(d, f, base, sizes);
    ReleaseAllRemoves(e, f, cells);
    FirstErrorAppend(ss, ReleaseAll(e, f, cells).1);
    UnmapResidue(d, base, sizes, cells, ss);
    ReleaseResidue(d.live, cells, ReleaseAll(e, f, cells).1);
  }

  lemma UnmapResidue(d: Device, base: nat, sizes: seq<nat>, hs: seq<nat>, ss: seq<int>)
    requires |sizes| == |hs| == |ss| && Positive(sizes) && SubMap(Layout(base, sizes, hs), d.mapped)
    ensures d.mapped - UnmappedOf(base, sizes, ss) == d.mapped - Layout(base, sizes, hs).Keys <==> FirstError(ss) == OK
  {
    FirstErrorIs(ss);
    if i :| 0 <= i < |ss| && ss[i] != OK {
      NotUnmapped(base, sizes, hs, ss, i);
      var k := base + Sum(sizes[..i]);
      assert k in d.mapped - UnmappedOf(base, sizes, ss) && k !in d.mapped - Layout(base, sizes, hs).Keys;
    } else {
      UnmappedAll(base, sizes, hs, ss);
    }
  }

  lemma ReleaseResidue(live: set<nat>, hs: seq<nat>, ts: seq<int>)
    requires |hs| == |ts| && Distinct(hs) && Members(hs) <= live
    ensures live - ReleasedOf(hs, ts) == live - Members(hs) <==> FirstError(ts) == OK
  {
    FirstErrorIs(ts);
    if i :| 0 <= i < |ts| && ts[i] != OK {
      NotReleased(hs, ts, i);
      assert hs[i] in live - ReleasedOf(hs, ts) && hs[i] !in live - Members(hs);
    } else {
      assert ReleasedOf(hs, ts) == Members(hs);
    }
  }

  lemma BackedBlock(w: World, a: nat)
    requires Inv(w) && IsAwake(w.table, a)
    ensures var b := w.table[a];
            && |b.sizes| == |b.cells| && Positive(b.sizes) && ChunksOf(w.table, a) == Layout(a, b.sizes, b.cells)
            && SubMap(ChunksOf(w.table, a), w.device.mapped) && Distinct(b.cells) && Members(b.cells) <= w.device.live
            && a in w.device.reserved && w.device.reserved[a] == b.size
  {
    assert IsLive(w.table, a) && Backed(w.device, w.table, a);
  }

  /** Putting an awake block to sleep: safe exactly when no unmap and no release fails. */
  lemma SleepAwakeIff(w: World, c: Config, a: nat)
    requires Inv(w) && IsAwake(w.table, a)
    ensures Sleep(w, c, a).0.device.violations == 0
    ensures Inv(Sleep(w, c, a).0) <==>
            FirstError(Teardown(w.device, c.fate, a, w.table[a].sizes, w.table[a].cells)) == OK
  {
    var b, w' := w.table[a], Sleep(w, c, a).0;
    BackedBlock(w, a);
    TeardownResidue(w.device, c.fate, w.err, a, b.sizes, b.cells);
    if FirstError(Teardown(w.device, c.fate, a, b.sizes, b.cells)) == OK {
      SleepKeeps(w, c, a);
    } else if Inv(w') {
      var ideal := Torn(w, a, w'.device.calls);
      Deactivate(w, a, ideal);
      Determined(ideal, w');
    }
  }

  /** Putting a live block to sleep is free of refused calls exactly when it is awake, and safe exactly
      when moreover no unmap and no release fails. */
  lemma SleepIff(w: World, c: Config, a: nat)
    requires Inv(w) && IsLive(w.table, a)
    ensures Sleep(w, c, a).0.device.violations == 0 <==> IsAwake(w.table, a)
    ensures Inv(Sleep(w, c, a).0) <==>
            && IsAwake(w.table, a)
            && FirstError(Teardown(w.device, c.fate, a, w.table[a].sizes, w.table[a].cells)) == OK
  {
    if IsAwake(w.table, a) {
      SleepAwakeIff(w, c, a);
    } else {
      TeardownAsleepRefused(w, c, a);
    }
  }

  /** An entry whose handles are dead, as those of an allocation that failed after it was registered,
      has its releases refused. */
  lemma DeadHandlesRefused(w: World, c: Config, a: nat, i: nat)
    requires Inv(w) && a in w.table && i < |w.table[a].cells| && w.table[a].cells[i] !in w.device.live
    ensures Sleep(w, c, a).0.device.violations > 0
  {
    var b := w.table[a];
    UnmapCounts(w.device, c.fate, a, b.sizes);
    ReleaseDeadRefused(UnmapAll(w.device, c.fate, a, b.sizes).0, c.fate, b.cells, i);
  }

  /** The handle cells left by a failed `create_and_map` hold new handles or what they held before. */
  lemma FailedCells(d: Device, f: Fate, base: nat, sizes: seq<nat>, cells: seq<nat>)
    requires Vacant(d, base, sizes) && |cells| == |sizes| > 0
    ensures var o := CreateAndMap(d, f, OK, base, sizes, cells);
            o.cells[0] >= d.calls || o.cells[0] == cells[0]
  {
    CreateAllAdds(d, f, sizes);
  }

  /** An allocation that fails after it was registered, and is rolled back without a failure, leaves an
      entry behind that can not be put to sleep: its handles are dead already. The cells start out with a
      number that is no live handle. */
  lemma FailedEntryRefused(w: World, c: Config, size: nat)
    requires Inv(w) && NoWrap(size, c.granularity, c.setting) && 0 !in w.device.live
    requires Reserves(w, c, size) && Malloc(w, c, size, true).1 == 0
    requires FirstError(MallocStatuses(w, c, size, true)) == OK
    ensures var w' := Malloc(w, c, size, true).0;
            exists a: nat :: a in w'.table && w'.table[a].phase.Gone? && Sleep(w', c, a).0.device.violations > 0
  {
    var f, aligned, sizes := c.fate, AlignUp(size, c.granularity), Plan(size, c.granularity, c.setting);
    var d1 := DoGranularity(w.device, f).0;
    var (d2, _, a) := ReserveRocm(d1, f, aligned, c.granularity);
    var cells := seq(|sizes|, _ => 0);
    MallocKeeps(w, c, size, true);
    PlanTiles(size, c.granularity, c.setting);
    var mid := ReservedBlock(w, c, size);
    FailedCells(d2, f, a, sizes, cells);
    var o := CreateAndMap(d2, f, OK, a, sizes, cells);
    FirstErrorAppend(Aftermath(d2, f, a, sizes),
                     if o.err == OK then [] else [DoAddressFree(o.device, f, a, aligned).1]);
    AllOrNothing(d2, f, a, sizes, cells);
    DeadHandlesRefused(Malloc(w, c, size, true).0, c, a, 0);
  }

  /** The world just after an allocation has reserved its range and registered its block. */
  lemma ReservedBlock(w: World, c: Config, size: nat) returns (mid: World)
    requires Inv(w) && NoWrap(size, c.granularity, c.setting) && Reserves(w, c, size)
    ensures var aligned, sizes := AlignUp(size, c.granularity), Plan(size, c.granularity, c.setting);
            var d1 := DoGranularity(w.device, c.fate).0;
            var (d2, s, a) := ReserveRocm(d1, c.fate, aligned, c.granularity);
            && a > 0 && !IsLive(w.table, a) && Vacant(d2, a, sizes) && aligned > 0 && a !in w.device.reserved
            && d2 == w.device.(reserved := w.device.reserved[a := aligned], calls := d2.calls)
            && w.device.calls <= d2.calls && Sum(sizes) == aligned && |sizes| > 0
            && Inv(mid) && mid == World(d2, OK, w.table[a := Block(aligned, sizes, seq(|sizes|, _ => 0), Asleep)])
  {
    var aligned, sizes := AlignUp(size, c.granularity), Plan(size, c.granularity, c.setting);
    var d1 := DoGranularity(w.device, c.fate).0;
    TickKeeps(w, d1, OK);
    var w1 := World(d1, OK, w.table);
    MallocReserved(w1, c, size);
    PlanTiles(size, c.granularity, c.setting);
    var (d2, _, a) := ReserveRocm(d1, c.fate, aligned, c.granularity);
    mid := RegisterNew(w1, a, d2, aligned, sizes, seq(|sizes|, _ => 0));
  }

  // ----- freeing

  /** After the teardown of an awake block its range can be given back exactly when all of it was
      unmapped. */
  lemma FreeRange(w: World, c: Config, a: nat)
    requires Inv(w) && IsAwake(w.table, a)
    ensures var b := w.table[a];
            var g := UnmapAndRelease(w.device, c.fate, w.err, a, b.sizes, b.cells).0;
            && g.reserved == w.device.reserved && g.violations == 0
            && (Unmapped(g, a, b.size) <==> FirstError(UnmapAll(w.device, c.fate, a, b.sizes).1) == OK)
  {
    var b := w.table[a];
    var g := UnmapAndRelease(w.device, c.fate, w.err, a, b.sizes, b.cells).0;
    BackedBlock(w, a);
    TeardownResidue(w.device, c.fate, w.err, a, b.sizes, b.cells);
    var ideal := Torn(w, a, g.calls);
    Deactivate(w, a, ideal);
    AsleepIsVacant(ideal, a);
    if FirstError(UnmapAll(w.device, c.fate, a, b.sizes).1) != OK {
      LeftMapped(w, c, a);
    }
  }

  /** A chunk whose unmapping failed is still mapped, inside the block's range. */
  lemma LeftMapped(w: World, c: Config, a: nat)
    requires Inv(w) && IsAwake(w.table, a) && FirstError(UnmapAll(w.device, c.fate, a, w.table[a].sizes).1) != OK
    ensures var b := w.table[a];
            !Unmapped(UnmapAndRelease(w.device, c.fate, w.err, a, b.sizes, b.cells).0, a, b.size)
  {
    var b := w.table[a];
    BackedBlock(w, a);
    TeardownIsBestEffort(w.device, c.fate, w.err, a, b.sizes, b.cells);
    var ss := UnmapAll(w.device, c.fate, a, b.sizes).1;
    FirstErrorIs(ss);
    var i :| 0 <= i < |ss| && ss[i] != OK;
    assert IsLive(w.table, a);
    StillMapped(w.device.mapped, a, b.sizes, b.cells, ss, i);
  }

  lemma StillMapped(m: map<nat, Chunk>, base: nat, sizes: seq<nat>, hs: seq<nat>, ss: seq<int>, i: nat)
    requires |sizes| == |hs| == |ss| && Positive(sizes) && SubMap(Layout(base, sizes, hs), m) && i < |ss| && ss[i] != OK
    ensures exists k :: k in m - UnmappedOf(base, sizes, ss) && !Apart(base, Sum(sizes), k, m[k].size)
  {
    NotUnmapped(base, sizes, hs, ss, i);
    LayoutRange(base, sizes, hs);
    var k := base + Sum(sizes[..i]);
    assert k in Layout(base, sizes, hs);
    assert k in m - UnmappedOf(base, sizes, ss) && !Apart(base, Sum(sizes), k, m[k].size);
  }

  /** Freeing a live block: no call is refused exactly when it is awake, the size is the rounded one and
      no unmap fails; the range stays reserved exactly when one of these fails or the range can not be
      given back. */
  lemma FreeRefusedIff(w: World, c: Config, a: nat, size: nat)
    requires Inv(w) && IsLive(w.table, a)
    ensures Free(w, c, a, size).device.violations == 0 <==>
            && IsAwake(w.table, a) && size == w.table[a].size
            && FirstError(UnmapAll(w.device, c.fate, a, w.table[a].sizes).1) == OK
  {
    if IsAwake(w.table, a) {
      FreeRange(w, c, a);
      BackedBlock(w, a);
    } else {
      TeardownAsleepRefused(w, c, a);
    }
  }

  /** An awake block's range stays reserved exactly when it is freed with another size, an unmap fails or
      the call that gives it back does. */
  lemma RangeLeaksIff(w: World, c: Config, a: nat, size: nat)
    requires Inv(w) && IsAwake(w.table, a)
    ensures var b := w.table[a];
            var g := UnmapAndRelease(w.device, c.fate, w.err, a, b.sizes, b.cells).0;
            a in Free(w, c, a, size).device.reserved <==>
            || size != b.size
            || FirstError(UnmapAll(w.device, c.fate, a, b.sizes).1) != OK
            || c.fate.status(AddressFree, g.calls) != OK
  {
    FreeRange(w, c, a);
    BackedBlock(w, a);
  }

  /** Freeing a live block is safe exactly when it is awake, the size is the rounded one and no call
      fails. */
  lemma FreeIff(w: World, c: Config, a: nat, size: nat)
    requires Inv(w) && IsLive(w.table, a)
    ensures Inv(Free(w, c, a, size)) <==> Safe(w, c, FreeOp(a, size))
  {
    if Safe(w, c, FreeOp(a, size)) {
      FreeKeeps(w, c, a);
    } else if Inv(Free(w, c, a, size)) {
      FreeRefusedIff(w, c, a, size);
      FreeUnsafe(w, c, a);
    }
  }

  lemma FreeUnsafe(w: World, c: Config, a: nat)
    requires Inv(w) && IsAwake(w.table, a) && !Safe(w, c, FreeOp(a, w.table[a].size))
    ensures !Inv(Free(w, c, a, w.table[a].size))
  {
    var b, w' := w.table[a], Free(w, c, a, w.table[a].size);
    BackedBlock(w, a);
    var g := UnmapAndRelease(w.device, c.fate, w.err, a, b.sizes, b.cells).0;
    FirstErrorAppend(Teardown(w.device, c.fate, a, b.sizes, b.cells), [DoAddressFree(g, c.fate, a, b.size).1]);
    if FirstError(Teardown(w.device, c.fate, a, b.sizes, b.cells)) != OK {
      FreeResidue(w, c, a);
    } else {
      TeardownResidue(w.device, c.fate, w.err, a, b.sizes, b.cells);
      assert a in w'.device.reserved && !IsLive(w'.table, a);
    }
  }

  lemma FreeResidue(w: World, c: Config, a: nat)
    requires Inv(w) && IsAwake(w.table, a)
    requires FirstError(Teardown(w.device, c.fate, a, w.table[a].sizes, w.table[a].cells)) != OK
    ensures !Inv(Free(w, c, a, w.table[a].size))
  {
    var b, w' := w.table[a], Free(w, c, a, w.table[a].size);
    BackedBlock(w, a);
    TeardownResidue(w.device, c.fate, w.err, a, b.sizes, b.cells);
    if Inv(w') {
      var ideal := Torn(w, a, w'.device.calls);
      Deactivate(w, a, ideal);
      Determined(ideal, w');
    }
  }

  // ----- waking

  /** Creation of the block's handles fails, or is given up on because of an old error. */
  predicate CreationFails(w: World, c: Config, a: nat)
    requires a in w.table
  {
    w.err != OK || CreateAll(w.device, c.fate, w.table[a].sizes).1 != OK
  }

  lemma FirstChunkMapped(w: World, a: nat)
    requires Inv(w) && IsAwake(w.table, a)
    ensures a in w.device.mapped && OwnsChunk(w.table, a, a) && w.device.mapped[a].size > 0 && w.table[a].sizes != []
  {
    var b := w.table[a];
    assert IsLive(w.table, a) && Backed(w.device, w.table, a);
    var k := LayoutCovers(a, b.sizes, b.cells, a);
    LayoutRange(a, b.sizes, b.cells);
    assert k == a && OwnsChunk(w.table, a, a);
    ChunkInside(w.device, w.table, a, a);
  }

  /** Waking an awake block while no handle can be created changes no mapping. */
  lemma WakeAwakeCreationFails(w: World, c: Config, a: nat)
    requires Inv(w) && IsAwake(w.table, a) && Accepts(w, c, WakeOp(a)) && CreationFails(w, c, a)
    ensures var (w', raised) := Wake(w, c, a);
            raised && w'.device.violations == 0 && w'.device.mapped == w.device.mapped
  {
    var d, f, sizes := w.device, c.fate, w.table[a].sizes;
    if w.err == OK {
      CreateAllAdds(d, f, sizes);
      var (e, s, hs) := CreateAll(d, f, sizes);
      ReleaseAllRemoves(e, f, hs);
    }
  }

  /** Waking an awake block otherwise makes the driver refuse to map over its mapping. */
  lemma WakeAwakeRefused(w: World, c: Config, a: nat)
    requires Inv(w) && IsAwake(w.table, a) && Accepts(w, c, WakeOp(a)) && !CreationFails(w, c, a)
    ensures Wake(w, c, a).1 && Wake(w, c, a).0.device.violations > 0
  {
    var d, f, sizes := w.device, c.fate, w.table[a].sizes;
    FirstChunkMapped(w, a);
    CreateAllAdds(d, f, sizes);
    var (e, s, hs) := CreateAll(d, f, sizes);
    assert IsLive(w.table, a) && sizes[0] > 0;
    MapOccupiedRefused(e, f, a, sizes, hs);
    assert UnmapAll(Refused(e), f, a, sizes[..0]).0 == Refused(e);
    ReleaseOnlyReleases(Refused(e), f, hs);
  }

  /** Waking an awake block always raises, and the driver refuses a call unless no handle can be
      created. */
  lemma WakeAwake(w: World, c: Config, a: nat)
    requires Inv(w) && IsAwake(w.table, a) && Accepts(w, c, WakeOp(a))
    ensures Wake(w, c, a).1
    ensures Wake(w, c, a).0.device.violations == 0 <==> CreationFails(w, c, a)
  {
    if CreationFails(w, c, a) {
      WakeAwakeCreationFails(w, c, a);
    } else {
      WakeAwakeRefused(w, c, a);
    }
  }

  lemma OneChunkOwner(w: World, a: nat, x: nat)
    requires Inv(w) && IsAwake(w.table, a) && x != a
    ensures !OwnsChunk(w.table, x, a)
  {
    FirstChunkMapped(w, a);
    if IsAwake(w.table, x) {
      ChunksApart(w.device, w.table, a, x);
    }
  }

  /** A mapping whose block is no longer counted as awake has no owner. */
  lemma Orphan(w: World, a: nat, w': World)
    requires Inv(w) && IsAwake(w.table, a) && !IsAwake(w'.table, a) && SameElsewhere(w.table, w'.table, a)
    requires w'.device.mapped == w.device.mapped
    ensures !ChunksOwned(w'.device, w'.table)
  {
    FirstChunkMapped(w, a);
    forall x ensures !OwnsChunk(w'.table, x, a) {
      if x != a {
        OneChunkOwner(w, a, x);
        OwnsSame(w.table, w'.table, a, x, a);
      }
    }
    NotOwned(w'.device, w'.table, a);
  }

  lemma OwnsSame(t: map<nat, Block>, t': map<nat, Block>, a: nat, x: nat, k: nat)
    requires SameElsewhere(t, t', a) && x != a
    ensures OwnsChunk(t', x, k) <==> OwnsChunk(t, x, k)
  {
  }

  lemma NotOwned(d: Device, t: map<nat, Block>, k: nat)
    requires k in d.mapped && forall x :: !OwnsChunk(t, x, k)
    ensures !ChunksOwned(d, t)
  {
  }

  lemma NewHandleUnowned(w: World, x: nat)
    requires Inv(w)
    ensures !OwnsHandle(w.table, x, w.device.calls)
  {
    assert IsAwake(w.table, x) ==> Backed(w.device, w.table, x);
  }

  /** Waking with an old error leaks a handle, unless nothing can be created. */
  lemma WakeStale(w: World, c: Config, a: nat)
    requires Inv(w) && IsLive(w.table, a) && !IsAwake(w.table, a) && w.err != OK
    requires c.fate.status(Create, w.device.calls) == OK
    ensures !HandlesOwned(Wake(w, c, a).0.device, Wake(w, c, a).0.table)
  {
    var b, w', h := w.table[a], Wake(w, c, a).0, w.device.calls;
    AsleepIsVacant(w, a);
    StaleErrorLeaks(w.device, c.fate, w.err, a, b.sizes, b.cells);
    assert h in w'.device.live;
    forall x ensures !OwnsHandle(w'.table, x, h) {
      NewHandleUnowned(w, x);
    }
  }

  /** Waking a sleeping block with no old error is safe exactly when no rollback call fails and the
      access can be set. */
  lemma WakeAsleepIff(w: World, c: Config, a: nat)
    requires Inv(w) && Accepts(w, c, WakeOp(a)) && !IsAwake(w.table, a) && w.err == OK
    ensures Inv(Wake(w, c, a).0) <==> FirstError(Aftermath(w.device, c.fate, a, w.table[a].sizes)) == OK
  {
    var b, w' := w.table[a], Wake(w, c, a).0;
    if FirstError(Aftermath(w.device, c.fate, a, b.sizes)) == OK {
      WakeKeeps(w, c, a);
    } else if Inv(w') {
      AsleepIsVacant(w, a);
      HalfDone(w.device, c.fate, a, b.sizes, b.cells);
      Determined(w, w');
    }
  }

  /** `create_and_map` with a failed rollback or access call fails and leaves handles or mappings. */
  lemma HalfDone(d: Device, f: Fate, base: nat, sizes: seq<nat>, cells: seq<nat>)
    requires Vacant(d, base, sizes) && |cells| == |sizes| > 0 && FirstError(Aftermath(d, f, base, sizes)) != OK
    ensures var o := CreateAndMap(d, f, OK, base, sizes, cells);
            o.err != OK && !(o.device.live == d.live && o.device.mapped == d.mapped)
  {
    if Fails(d, f, base, sizes) {
      AtomicIff(d, f, base, sizes, cells);
    } else {
      AccessFailureKeepsMapping(d, f, base, sizes, cells);
      var o := CreateAndMap(d, f, OK, base, sizes, cells);
      MappableAfterCreate(d, f, base, sizes);
      assert o.cells == CreateAll(d, f, sizes).2 && o.cells[0] in Members(o.cells);
    }
  }

  /** Waking a live block is safe exactly when it sleeps, and no error is left over and no rollback or
      access call fails, or there is an error but nothing can be created. */
  lemma WakeIff(w: World, c: Config, a: nat)
    requires Inv(w) && Accepts(w, c, WakeOp(a))
    ensures Inv(Wake(w, c, a).0) <==> Safe(w, c, WakeOp(a))
  {
    if IsAwake(w.table, a) {
      WakeAwake(w, c, a);
      if CreationFails(w, c, a) {
        WakeAwakeCreationFails(w, c, a);
        Orphan(w, a, Wake(w, c, a).0);
      }
    } else if w.err == OK {
      WakeAsleepIff(w, c, a);
    } else if c.fate.status(Create, w.device.calls) != OK {
      WakeKeeps(w, c, a);
    } else {
      WakeStale(w, c, a);
    }
  }

  // ----- allocating

  /** The unmap statuses of the rollback of a failed `create_and_map`. */
  function RollbackUnmaps(d: Device, f: Fate, base: nat, sizes: seq<nat>): seq<int> {
    var (e, s, hs) := CreateAll(d, f, sizes);
    if s != OK then []
    else
      var (g, t, k) := MapAll(e, f, base, sizes, hs);
      UnmapAll(g, f, base, sizes[..k]).1
  }

  /** After a failed `create_and_map` the block's range holds no mapping exactly when no rollback unmap
      failed. */
  lemma RolledBackRange(d: Device, f: Fate, base: nat, sizes: seq<nat>, cells: seq<nat>)
    requires Vacant(d, base, sizes) && |cells| == |sizes| && Fails(d, f, base, sizes)
    ensures var o := CreateAndMap(d, f, OK, base, sizes, cells);
            && o.err != OK && o.device.reserved == d.reserved
            && (Unmapped(o.device, base, d.reserved[base]) <==> FirstError(RollbackUnmaps(d, f, base, sizes)) == OK)
  {
    if CreateAll(d, f, sizes).1 != OK {
      CreateResidue(d, f, base, sizes, cells);
    } else {
      MapResidue(d, f, base, sizes, cells);
      var (e, s, hs) := CreateAll(d, f, sizes);
      var (g, t, k) := MapAll(e, f, base, sizes, hs);
      var ss := UnmapAll(g, f, base, sizes[..k]).1;
      MappedRange(d, base, sizes, hs, k, ss);
    }
  }

  lemma MappedRange(d: Device, base: nat, sizes: seq<nat>, hs: seq<nat>, k: nat, ss: seq<int>)
    requires Vacant(d, base, sizes) && |hs| == |sizes| && k <= |sizes| && |ss| == k
    ensures var l := Layout(base, sizes[..k], hs[..k]) - UnmappedOf(base, sizes[..k], ss);
            Unmapped(d.(mapped := d.mapped + l), base, d.reserved[base]) <==> FirstError(ss) == OK
  {
    var l := Layout(base, sizes[..k], hs[..k]) - UnmappedOf(base, sizes[..k], ss);
    var e := d.(mapped := d.mapped + l);
    FirstErrorIs(ss);
    LayoutPrefix(base, sizes, hs, k);
    LayoutRange(base, sizes, hs);
    if i :| 0 <= i < |ss| && ss[i] != OK {
      NotUnmapped(base, sizes[..k], hs[..k], ss, i);
      var x := base + Sum(sizes[..k][..i]);
      assert x in l && x in Layout(base, sizes, hs);
      assert x in e.mapped && !Apart(base, d.reserved[base], x, e.mapped[x].size);
    } else {
      UnmappedAll(base, sizes[..k], hs[..k], ss);
      assert e.mapped == d.mapped;
    }
  }

  /** An allocation leaves an address range reserved that no block stands for. */
  predicate RangeStays(w: World, c: Config, size: nat, hostOk: bool)
    requires NoWrap(size, c.granularity, c.setting)
  {
    var f, aligned, sizes := c.fate, AlignUp(size, c.granularity), Plan(size, c.granularity, c.setting);
    var (d1, s1) := DoGranularity(w.device, f);
    && Checked(w.err, s1) == OK
    && var (d2, s2, a) := ReserveRocm(d1, f, aligned, c.granularity);
       if s2 != OK then FirstError(ReserveUndo(d1, f, aligned, c.granularity)) != OK
       else !hostOk || BlockRangeStays(d2, f, a, sizes)
  }

  /** The access could not be set, a rollback unmap failed, or the call that gives the range back. */
  predicate BlockRangeStays(d: Device, f: Fate, a: nat, sizes: seq<nat>) {
    || !Fails(d, f, a, sizes)
    || FirstError(RollbackUnmaps(d, f, a, sizes)) != OK
    || f.status(AddressFree, CreateAndMap(d, f, OK, a, sizes, seq(|sizes|, _ => 0)).device.calls) != OK
  }

  /** A reservation that no block stands for. */
  lemma Unclaimed(w: World, w': World)
    requires Inv(w) && SameLive(w.table, w'.table) && w'.device.reserved != w.device.reserved
    ensures !Inv(w')
  {
    if Inv(w') {
      SameReserved(w, w');
    }
  }

  /** The last step of a failed allocation, seen from the reservation. */
  lemma GivenBackIff(d: Device, f: Fate, a: nat, aligned: nat, sizes: seq<nat>, before: map<nat, nat>)
    requires Vacant(d, a, sizes) && |sizes| > 0 && aligned == Sum(sizes)
    requires a !in before && d.reserved == before[a := aligned]
    requires CreateAndMap(d, f, OK, a, sizes, seq(|sizes|, _ => 0)).err != OK
    ensures var o := CreateAndMap(d, f, OK, a, sizes, seq(|sizes|, _ => 0));
            var (d3, s3) := DoAddressFree(o.device, f, a, aligned);
            && d3.live == o.device.live && d3.mapped == o.device.mapped
            && (d3.reserved == before <==> s3 == OK)
            && (s3 == OK <==> !BlockRangeStays(d, f, a, sizes))
  {
    var cells := seq(|sizes|, _ => 0);
    var o := CreateAndMap(d, f, OK, a, sizes, cells);
    if Fails(d, f, a, sizes) {
      RolledBackRange(d, f, a, sizes, cells);
    } else {
      AccessKeepsRange(d, f, a, sizes, cells);
    }
    FreeIfUnmapped(o.device, f, a, aligned, before);
  }

  /** An address range that is reserved can be freed exactly when nothing is mapped in it and the call
      does not fail. */
  lemma FreeIfUnmapped(d: Device, f: Fate, a: nat, size: nat, before: map<nat, nat>)
    requires a !in before && d.reserved == before[a := size]
    ensures var (e, s) := DoAddressFree(d, f, a, size);
            && e.live == d.live && e.mapped == d.mapped
            && (e.reserved == before <==> s == OK)
            && (s == OK <==> Unmapped(d, a, size) && f.status(AddressFree, d.calls) == OK)
  {
    assert d.reserved - {a} == before;
  }

  /** When only the access can not be set, the whole block stays mapped. */
  lemma AccessKeepsRange(d: Device, f: Fate, a: nat, sizes: seq<nat>, cells: seq<nat>)
    requires Vacant(d, a, sizes) && |cells| == |sizes| > 0 && !Fails(d, f, a, sizes)
    ensures var o := CreateAndMap(d, f, OK, a, sizes, cells);
            && o.device.reserved == d.reserved && !Unmapped(o.device, a, d.reserved[a])
            && d.mapped.Keys < o.device.mapped.Keys && d.live < o.device.live
  {
    AccessFailureKeepsMapping(d, f, a, sizes, cells);
    var o := CreateAndMap(d, f, OK, a, sizes, cells);
    MappableAfterCreate(d, f, a, sizes);
    assert o.cells == CreateAll(d, f, sizes).2 && o.cells[0] in Members(o.cells);
    assert sizes[..|sizes|] == sizes && o.cells[..|sizes|] == o.cells;
    LayoutFresh(d, a, sizes, o.cells, |sizes|);
    assert a < a + Sum(sizes) by {
      SumIncreases(sizes, 0, |sizes|);
    }
    var k := LayoutCovers(a, sizes, o.cells, a);
    LayoutRange(a, sizes, o.cells);
    assert k in o.device.mapped && !Apart(a, d.reserved[a], k, o.device.mapped[k].size);
  }

  /** An allocation that returns null changes the reservations exactly when a range stays reserved:
      because a misaligned one could not be given back, the host side failed, the access could not be
      set, a rollback unmap failed, or the range could not be given back. */
  lemma NullLeaksIff(w: World, c: Config, size: nat, hostOk: bool)
    requires Inv(w) && NoWrap(size, c.granularity, c.setting)
    ensures var (w', p) := Malloc(w, c, size, hostOk);
            p == 0 ==> (w'.device.reserved != w.device.reserved <==> RangeStays(w, c, size, hostOk))
  {
    var f, aligned, sizes := c.fate, AlignUp(size, c.granularity), Plan(size, c.granularity, c.setting);
    var (d1, s1) := DoGranularity(w.device, f);
    if Checked(w.err, s1) == OK {
      TickKeeps(w, d1, OK);
      MallocReserved(World(d1, OK, w.table), c, size);
      var (d2, s2, a) := ReserveRocm(d1, f, aligned, c.granularity);
      if s2 == OK {
        var mid := ReservedBlock(w, c, size);
        if CreateAndMap(d2, f, OK, a, sizes, seq(|sizes|, _ => 0)).err != OK {
          GivenBackIff(d2, f, a, aligned, sizes, w.device.reserved);
        }
      }
    }
  }

  /** An allocation that creates and maps its block, or tries to: safe exactly when no rollback, access
      or address-free call fails. */
  lemma PlacedIff(w: World, c: Config, size: nat)
    requires Inv(w) && NoWrap(size, c.granularity, c.setting) && Reserves(w, c, size)
    ensures Inv(Malloc(w, c, size, true).0) <==> FirstError(MallocStatuses(w, c, size, true)) == OK
  {
    var w' := Malloc(w, c, size, true).0;
    if FirstError(MallocStatuses(w, c, size, true)) == OK {
      MallocKeeps(w, c, size, true);
    } else {
      var f, aligned, sizes := c.fate, AlignUp(size, c.granularity), Plan(size, c.granularity, c.setting);
      var d1 := DoGranularity(w.device, f).0;
      var (d2, _, a) := ReserveRocm(d1, f, aligned, c.granularity);
      var mid := ReservedBlock(w, c, size);
      NotPlaced(w, w', d2, f, a, aligned, sizes);
    }
  }

  lemma NotPlaced(w: World, w': World, d: Device, f: Fate, a: nat, aligned: nat, sizes: seq<nat>)
    requires Inv(w) && Vacant(d, a, sizes) && |sizes| > 0 && aligned == Sum(sizes)
    requires a !in w.device.reserved && !IsLive(w.table, a) && w.device.calls <= d.calls
    requires d == w.device.(reserved := w.device.reserved[a := aligned], calls := d.calls)
    requires FirstError(BlockStatuses(d, f, a, aligned, sizes)) != OK
    requires var o := CreateAndMap(d, f, OK, a, sizes, seq(|sizes|, _ => 0));
             if o.err == OK then
               w' == World(o.device, OK, w.table[a := Block(aligned, sizes, o.cells, Awake)])
             else
               var (d3, s3) := DoAddressFree(o.device, f, a, aligned);
               w' == World(d3, Checked(o.err, s3), w.table[a := Block(aligned, sizes, o.cells, Gone)])
    ensures !Inv(w')
  {
    var cells := seq(|sizes|, _ => 0);
    var o := CreateAndMap(d, f, OK, a, sizes, cells);
    FirstErrorAppend(Aftermath(d, f, a, sizes), if o.err == OK then [] else [DoAddressFree(o.device, f, a, aligned).1]);
    if FirstError(Aftermath(d, f, a, sizes)) != OK {
      HalfDone(d, f, a, sizes, cells);
    }
    GivenBackIff(d, f, a, aligned, sizes, w.device.reserved);
    if Inv(w') {
      SameReserved(w, w');
      Determined(w, w');
    }
  }

  /** Allocation is safe exactly when the host side does not fail after an address range was reserved
      and no rollback, access or address-free call fails. */
  lemma MallocIff(w: World, c: Config, size: nat, hostOk: bool)
    requires Inv(w) && NoWrap(size, c.granularity, c.setting)
    ensures Inv(Malloc(w, c, size, hostOk).0) <==> Safe(w, c, MallocOp(size, hostOk))
  {
    var (d1, s1) := DoGranularity(w.device, c.fate);
    TickKeeps(w, d1, Checked(w.err, s1));
    if Reserves(w, c, size) {
      if hostOk {
        PlacedIff(w, c, size);
      } else {
        var mid := ReservedBlock(w, c, size);
        Unclaimed(w, Malloc(w, c, size, false).0);
      }
    } else if Checked(w.err, s1) == OK {
      MallocReserved(World(d1, OK, w.table), c, size);
    }
  }

  // ----- steps and runs

  /** A step keeps the invariant exactly when the call is allowed and none of the calls that undo or
      complete something fails. */
  lemma StepKeepsIff(w: World, c: Config, op: Op)
    requires Inv(w) && Accepts(w, c, op)
    ensures Inv(Step(w, c, op)) <==> Safe(w, c, op)
  {
    match op
    case MallocOp(size, hostOk) => MallocIff(w, c, size, hostOk);
    case SleepOp(a) => SleepIff(w, c, a);
    case WakeOp(a) => WakeIff(w, c, a);
    case FreeOp(a, size) => FreeIff(w, c, a, size);
  }

  const EMPTY := World(Device(map[], {}, map[], 0, 0), OK, map[])

  /** `ws` is a run of any calls on live blocks from an empty allocator. */
  ghost predicate AnyRun(c: Config, ops: seq<Op>, ws: seq<World>) {
    && |ws| == |ops| + 1
    && ws[0] == EMPTY
    && forall i :: 0 <= i < |ops| ==> StepAt(c, ops, ws, i)
  }

  predicate StepAt(c: Config, ops: seq<Op>, ws: seq<World>, i: nat)
    requires i < |ops| && |ws| == |ops| + 1
  {
    Accepts(ws[i], c, ops[i]) && ws[i + 1] == Step(ws[i], c, ops[i])
  }

  /** Allocator safety, exactly, for every driver: the invariant holds throughout a run if and only if
      every step in it is safe. */
  lemma RunSafeIff(c: Config, ops: seq<Op>, ws: seq<World>)
    requires AnyRun(c, ops, ws)
    ensures (forall i :: 0 <= i < |ws| ==> Inv(ws[i])) <==> (forall i :: 0 <= i < |ops| ==> Safe(ws[i], c, ops[i]))
  {
    if forall i :: 0 <= i < |ws| ==> Inv(ws[i]) {
      forall i | 0 <= i < |ops| ensures Safe(ws[i], c, ops[i]) {
        assert StepAt(c, ops, ws, i) && Inv(ws[i]) && Inv(ws[i + 1]);
        StepKeepsIff(ws[i], c, ops[i]);
      }
    }
    if forall i :: 0 <= i < |ops| ==> Safe(ws[i], c, ops[i]) {
      assert Run(c, ops, ws) by {
        forall i | 0 <= i < |ops| ensures Safe(ws[i], c, ops[i]) && ws[i + 1] == Step(ws[i], c, ops[i]) {
          assert StepAt(c, ops, ws, i);
        }
      }
      forall i | 0 <= i < |ws| ensures Inv(ws[i]) {
        RunSafe(c, ops, ws, i);
      }
    }
  }

  // ----- runs that fail

  lemma EmptyIsSafe(c: Config)
    ensures Inv(EMPTY)
  {
    RunSafe(c, [], [EMPTY], 0);
  }

  /** Allocate, sleep, free: if the block really was put to sleep, then whatever size it is freed with,
      the driver refuses calls, for it is asked to unmap what is not mapped and to release handles a
      second time. */
  lemma SleepThenFree(c: Config, size: nat, freed: nat) returns (p: nat, ops: seq<Op>, ws: seq<World>)
    requires NoWrap(size, c.granularity, c.setting) && Malloc(EMPTY, c, size, true).1 != 0
    requires var (w, p) := Malloc(EMPTY, c, size, true);
             p in w.table && FirstError(Teardown(w.device, c.fate, p, w.table[p].sizes, w.table[p].cells)) == OK
    ensures p == Malloc(EMPTY, c, size, true).1
    ensures ops == [MallocOp(size, true), SleepOp(p), FreeOp(p, freed)]
    ensures AnyRun(c, ops, ws) && ws[3].device.violations > 0
  {
    var w: World;
    w, p := FirstBlock(c, size);
    var later := SleptFreeRefused(c, w, p, freed);
    ops, ws := ThreeSteps(c, MallocOp(size, true), SleepOp(p), FreeOp(p, freed), EMPTY, later);
  }

  lemma FirstBlock(c: Config, size: nat) returns (w: World, p: nat)
    requires NoWrap(size, c.granularity, c.setting) && Malloc(EMPTY, c, size, true).1 != 0
    ensures p == Malloc(EMPTY, c, size, true).1 && Inv(w) && IsAwake(w.table, p)
    ensures w == Step(EMPTY, c, MallocOp(size, true))
  {
    EmptyIsSafe(c);
    SuccessIsSafe(EMPTY, c, size);
    MallocReturns(EMPTY, c, size, true);
    w, p := Malloc(EMPTY, c, size, true).0, Malloc(EMPTY, c, size, true).1;
  }

  /** An allocation that returns a block made no failing call that matters. */
  lemma SuccessIsSafe(w: World, c: Config, size: nat)
    requires Inv(w) && NoWrap(size, c.granularity, c.setting) && Malloc(w, c, size, true).1 != 0
    ensures Inv(Malloc(w, c, size, true).0)
  {
    var f, aligned, sizes := c.fate, AlignUp(size, c.granularity), Plan(size, c.granularity, c.setting);
    var d1 := DoGranularity(w.device, f).0;
    var (d2, _, a) := ReserveRocm(d1, f, aligned, c.granularity);
    var mid := ReservedBlock(w, c, size);
    var cells := seq(|sizes|, _ => 0);
    if FirstError(Aftermath(d2, f, a, sizes)) != OK {
      HalfDone(d2, f, a, sizes, cells);
    }
    FirstErrorAppend(Aftermath(d2, f, a, sizes), []);
    MallocKeeps(w, c, size, true);
  }

  lemma ThreeSteps(c: Config, o1: Op, o2: Op, o3: Op, w: World, later: seq<World>)
    returns (ops: seq<Op>, ws: seq<World>)
    requires w == EMPTY && |later| == 3
    requires Accepts(w, c, o1) && later[0] == Step(w, c, o1)
    requires Accepts(later[0], c, o2) && later[1] == Step(later[0], c, o2)
    requires Accepts(later[1], c, o3) && later[2] == Step(later[1], c, o3)
    ensures ops == [o1, o2, o3] && AnyRun(c, ops, ws) && ws == [w] + later
  {
    ops, ws := [o1, o2, o3], [w] + later;
    assert ws[0] == w && ws[1] == later[0] && ws[2] == later[1] && ws[3] == later[2];
    forall i | 0 <= i < |ops| ensures StepAt(c, ops, ws, i) {
      assert i == 0 || i == 1 || i == 2;
    }
  }

  lemma SleptFreeRefused(c: Config, w: World, a: nat, freed: nat) returns (ws: seq<World>)
    requires Inv(w) && IsAwake(w.table, a)
    requires FirstError(Teardown(w.device, c.fate, a, w.table[a].sizes, w.table[a].cells)) == OK
    ensures |ws| == 3 && ws[0] == w && ws[2].device.violations > 0
    ensures Accepts(w, c, SleepOp(a)) && ws[1] == Step(w, c, SleepOp(a))
    ensures Accepts(ws[1], c, FreeOp(a, freed)) && ws[2] == Step(ws[1], c, FreeOp(a, freed))
  {
    var w' := Sleep(w, c, a).0;
    SleepKeeps(w, c, a);
    FreeRefusedIff(w', c, a, freed);
    ws := [w, w', Free(w', c, a, freed)];
  }

  lemma {:induction false} CreateAllOk(d: Device, f: Fate, sizes: seq<nat>)
    requires forall n: nat :: f.status(Create, n) == OK
    ensures CreateAll(d, f, sizes).1 == OK
    decreases |sizes|
  {
    if sizes != [] {
      CreateAllOk(d, f, sizes[..|sizes| - 1]);
    }
  }

  lemma {:induction false} MapAllOk(d: Device, f: Fate, base: nat, sizes: seq<nat>, hs: seq<nat>)
    requires Mappable(d, base, sizes, hs) && forall n: nat :: f.status(MapChunk, n) == OK
    ensures MapAll(d, f, base, sizes, hs).1 == OK
    decreases |sizes|
  {
    if sizes != [] {
      var n := |sizes| - 1;
      MapAllOk(d, f, base, sizes[..n], hs[..n]);
      MapAllAdds(d, f, base, sizes[..n], hs[..n]);
      assert sizes[..n][..n] == sizes[..n] && hs[..n][..n] == hs[..n];
      MapOneLegal(d, MapAll(d, f, base, sizes[..n], hs[..n]).0, base, sizes, hs);
    }
  }

  /** A driver that fails no call, except perhaps for setting the access. */
  ghost predicate Willing(f: Fate) {
    forall k: Kind, n: nat :: k != SetAccess ==> f.status(k, n) == OK
  }

  /** With such a driver the handles of a first allocation are created and mapped, wherever its address
      range may start. */
  lemma WillingMaps(c: Config, size: nat)
    requires Willing(c.fate) && NoWrap(size, c.granularity, c.setting)
    requires c.fate.place(1) > 0 && c.fate.place(1) % c.granularity == 0
    ensures var sizes := Plan(size, c.granularity, c.setting);
            var d1 := DoGranularity(EMPTY.device, c.fate).0;
            var (d2, s2, a) := ReserveRocm(d1, c.fate, AlignUp(size, c.granularity), c.granularity);
            && s2 == OK && a == c.fate.place(1) && Vacant(d2, a, sizes) && !Fails(d2, c.fate, a, sizes)
            && |sizes| > 0 && Reserves(EMPTY, c, size)
  {
    var f, aligned, sizes := c.fate, AlignUp(size, c.granularity), Plan(size, c.granularity, c.setting);
    PlanTiles(size, c.granularity, c.setting);
    var d1 := DoGranularity(EMPTY.device, f).0;
    var (d2, s2, a) := ReserveRocm(d1, f, aligned, c.granularity);
    assert s2 == OK && a == f.place(1) && d2 == d1.(reserved := map[a := aligned], calls := d1.calls + 1);
    assert Vacant(d2, a, sizes);
    CreateAllOk(d2, f, sizes);
    MappableAfterCreate(d2, f, a, sizes);
    var (e, _, hs) := CreateAll(d2, f, sizes);
    MapAllOk(e, f, a, sizes, hs);
  }

  /** If the access can be set too, the allocation succeeds. */
  lemma WillingAllocates(c: Config, size: nat)
    requires Willing(c.fate) && NoWrap(size, c.granularity, c.setting)
    requires c.fate.place(1) > 0 && c.fate.place(1) % c.granularity == 0
    requires forall n: nat :: c.fate.status(SetAccess, n) == OK
    ensures Malloc(EMPTY, c, size, true).1 == c.fate.place(1)
  {
    WillingMaps(c, size);
    var sizes := Plan(size, c.granularity, c.setting);
    var d1 := DoGranularity(EMPTY.device, c.fate).0;
    var (d2, _, a) := ReserveRocm(d1, c.fate, AlignUp(size, c.granularity), c.granularity);
    AccessFailureKeepsMapping(d2, c.fate, a, sizes, seq(|sizes|, _ => 0));
  }

  /** If only the access can not be set, `my_malloc` returns null, but its range stays reserved, its
      chunks stay mapped, its handles stay live, and the driver refuses to free the range. */
  lemma AccessFailureLeaks(c: Config, size: nat)
    requires Willing(c.fate) && NoWrap(size, c.granularity, c.setting)
    requires c.fate.place(1) > 0 && c.fate.place(1) % c.granularity == 0
    requires forall n: nat :: c.fate.status(SetAccess, n) != OK
    ensures var (w, p) := Malloc(EMPTY, c, size, true);
            && p == 0 && w.device.violations > 0 && c.fate.place(1) in w.device.reserved
            && w.device.mapped != map[] && w.device.live != {}
  {
    WillingMaps(c, size);
    var aligned, sizes := AlignUp(size, c.granularity), Plan(size, c.granularity, c.setting);
    var d1 := DoGranularity(EMPTY.device, c.fate).0;
    var (d2, _, a) := ReserveRocm(d1, c.fate, aligned, c.granularity);
    var cells := seq(|sizes|, _ => 0);
    AccessFailureKeepsMapping(d2, c.fate, a, sizes, cells);
    AccessKeepsRange(d2, c.fate, a, sizes, cells);
    PlanTiles(size, c.granularity, c.setting);
  }

  lemma {:induction false} TeardownOk(d: Device, f: Fate, base: nat, sizes: seq<nat>, cells: seq<nat>)
    requires |sizes| == |cells| && Positive(sizes) && Willing(f)
    requires SubMap(Layout(base, sizes, cells), d.mapped) && Distinct(cells) && Members(cells) <= d.live
    ensures FirstError(Teardown(d, f, base, sizes, cells)) == OK
  {
    UnmapAllOk(d, f, base, sizes, cells);
    UnmapAllRemoves(d, f, base, sizes, cells);
    var (e, ss) := UnmapAll(d, f, base, sizes);
    ReleaseAllOk(e, f, cells);
    FirstErrorIs(ss);
    FirstErrorIs(ReleaseAll(e, f, cells).1);
    FirstErrorAppend(ss, ReleaseAll(e, f, cells).1);
  }

  lemma {:induction false} UnmapAllOk(d: Device, f: Fate, base: nat, sizes: seq<nat>, hs: seq<nat>)
    requires Willing(f) && |sizes| == |hs| && Positive(sizes) && SubMap(Layout(base, sizes, hs), d.mapped)
    ensures forall i :: 0 <= i < |sizes| ==> UnmapAll(d, f, base, sizes).1[i] == OK
    decreases |sizes|
  {
    if sizes != [] {
      var n := |sizes| - 1;
      var a := base + Sum(sizes[..n]);
      LayoutGrows(base, sizes, hs);
      UnmapAllOk(d, f, base, sizes[..n], hs[..n]);
      UnmapAllRemoves(d, f, base, sizes[..n], hs[..n]);
      var (e, ss) := UnmapAll(d, f, base, sizes[..n]);
      UnmappedRange(base, sizes[..n], ss);
      assert a in e.mapped && e.mapped[a] == Chunk(sizes[n], hs[n]);
    }
  }

  lemma {:induction false} ReleaseAllOk(d: Device, f: Fate, hs: seq<nat>)
    requires Willing(f) && Distinct(hs) && Members(hs) <= d.live
    ensures forall i :: 0 <= i < |hs| ==> ReleaseAll(d, f, hs).1[i] == OK
    decreases |hs|
  {
    if hs != [] {
      var n := |hs| - 1;
      assert Members(hs[..n]) <= Members(hs);
      ReleaseAllOk(d, f, hs[..n]);
      ReleaseAllRemoves(d, f, hs[..n]);
      var (e, ss) := ReleaseAll(d, f, hs[..n]);
      assert hs[n] in Members(hs) && hs[n] !in ReleasedOf(hs[..n], ss);
    }
  }

  /** So a run fails although the driver fails no call. */
  lemma FailingRunExists() returns (c: Config, ops: seq<Op>, ws: seq<World>)
    ensures forall k: Kind, n: nat :: c.fate.status(k, n) == OK
    ensures AnyRun(c, ops, ws) && ws[|ops|].device.violations > 0
    ensures ops == [MallocOp(1, true), SleepOp(2 * MEGABYTE), FreeOp(2 * MEGABYTE, 2 * MEGABYTE)]
  {
    c := Config(Fate((_, _) => OK, _ => 2 * MEGABYTE), 2 * MEGABYTE, Unset);
    assert AlignUp(1, 2 * MEGABYTE) == 2 * MEGABYTE && AlignUp(DEFAULT_CHUNK, 2 * MEGABYTE) == DEFAULT_CHUNK;
    WillingAllocates(c, 1);
    var w, p := FirstBlock(c, 1);
    BackedBlock(w, p);
    TeardownOk(w.device, c.fate, p, w.table[p].sizes, w.table[p].cells);
    p, ops, ws := SleepThenFree(c, 1, 2 * MEGABYTE);
  }
}
