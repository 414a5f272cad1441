/** Safety of the allocator over whole runs of allocations, sleeps, wake-ups and frees, with a
    driver any of whose calls may fail. */
module AllocatorRuns {
  import opened Sums
  import opened Driver
  import opened Mapping
  import opened Chunking
  import opened Allocator

  datatype Op = MallocOp(size: nat, hostOk: bool) | SleepOp(a: nat) | WakeOp(a: nat) | FreeOp(a: nat, size: nat)

  predicate IsLive(t: map<nat, Block>, a: nat) {
    a in t && !t[a].phase.Gone?
  }

  predicate IsAwake(t: map<nat, Block>, a: nat) {
    a in t && t[a].phase.Awake?
  }

  /** An allocation gets as far as a reservation of its own. */
  predicate Reserves(w: World, c: Config, size: nat)
    requires NoWrap(size, c.granularity, c.setting)
  {
    var (d, s) := DoGranularity(w.device, c.fate);
    Checked(w.err, s) == OK && ReserveRocm(d, c.fate, AlignUp(size, c.granularity), c.granularity).1 == OK
  }

  /** The entry points as they may be called: any size that does not wrap, any live block. */
  predicate Accepts(w: World, c: Config, op: Op) {
    match op
    case MallocOp(size, _) => NoWrap(size, c.granularity, c.setting)
    case SleepOp(a) => IsLive(w.table, a)
    case WakeOp(a) => IsLive(w.table, a) && |w.table[a].cells| == |w.table[a].sizes|
    case FreeOp(a, _) => IsLive(w.table, a)
  }

  /** The calls that are safe: no host failure once an address range is reserved, only awake blocks
      put to sleep or freed (with their rounded size), only sleeping ones woken, and no wake-up on top
      of an uncleared error, unless nothing can be created anyway. */
  predicate Allowed(w: World, c: Config, op: Op) {
    && Accepts(w, c, op)
    && match op
       case MallocOp(size, hostOk) => hostOk || !Reserves(w, c, size)
       case SleepOp(a) => IsAwake(w.table, a)
       case WakeOp(a) => !IsAwake(w.table, a) && (w.err == OK || c.fate.status(Create, w.device.calls) != OK)
       case FreeOp(a, size) => IsAwake(w.table, a) && size == w.table[a].size
  }

  /** The status of giving a misaligned reservation back, if `reserve_rocm_address` does that. */
  function ReserveUndo(d: Device, f: Fate, size: nat, alignment: nat): seq<int> {
    var (e, s, a) := DoReserve(d, f, size, alignment);
    if s == OK || alignment == 0 then []
    else
      var (g, t, b) := DoReserve(e, f, size, 0);
      if t != OK || b % alignment == 0 then [] else [DoAddressFree(g, f, b, size).1]
  }

  /** The statuses of the rollback, teardown, address-free and set-access calls of an allocation. */
  function MallocStatuses(w: World, c: Config, size: nat, hostOk: bool): seq<int>
    requires NoWrap(size, c.granularity, c.setting)
  {
    var f, aligned, sizes := c.fate, AlignUp(size, c.granularity), Plan(size, c.granularity, c.setting);
    var (d1, s1) := DoGranularity(w.device, f);
    if Checked(w.err, s1) != OK then []
    else
      var (d2, s2, a) := ReserveRocm(d1, f, aligned, c.granularity);
      if s2 != OK then ReserveUndo(d1, f, aligned, c.granularity)
      else if !hostOk then []
      else BlockStatuses(d2, f, a, aligned, sizes)
  }

  /** Those of creating and mapping a block in a new reservation, and of giving that back on failure. */
  function BlockStatuses(d: Device, f: Fate, a: nat, aligned: nat, sizes: seq<nat>): seq<int> {
    var o := CreateAndMap(d, f, OK, a, sizes, seq(|sizes|, _ => 0));
    Aftermath(d, f, a, sizes) + if o.err == OK then [] else [DoAddressFree(o.device, f, a, aligned).1]
  }

  /** Those of one step. */
  function Statuses(w: World, c: Config, op: Op): seq<int>
    requires Accepts(w, c, op)
  {
    var d, f := w.device, c.fate;
    match op
    case MallocOp(size, hostOk) => MallocStatuses(w, c, size, hostOk)
    case SleepOp(a) => Teardown(d, f, a, w.table[a].sizes, w.table[a].cells)
    case WakeOp(a) => if w.err != OK then [] else Aftermath(d, f, a, w.table[a].sizes)
    case FreeOp(a, size) =>
      var b := w.table[a];
      Teardown(d, f, a, b.sizes, b.cells)
      + [DoAddressFree(UnmapAndRelease(d, f, w.err, a, b.sizes, b.cells).0, f, a, size).1]
  }

  /** A safe step: the caller may make the call, and no call that undoes or completes something fails. */
  predicate Safe(w: World, c: Config, op: Op) {
    Allowed(w, c, op) && FirstError(Statuses(w, c, op)) == OK
  }

  function Step(w: World, c: Config, op: Op): World
    requires Accepts(w, c, op)
  {
    match op
    case MallocOp(size, hostOk) => Malloc(w, c, size, hostOk).0
    case SleepOp(a) => Sleep(w, c, a).0
    case WakeOp(a) => Wake(w, c, a).0
    case FreeOp(a, size) => Free(w, c, a, size)
  }

  // ----- the invariant

  ghost predicate BlockOk(b: Block) {
    Positive(b.sizes) && Sum(b.sizes) == b.size > 0 && |b.cells| == |b.sizes|
  }

  ghost function ChunksOf(t: map<nat, Block>, a: nat): map<nat, Chunk> {
    if a in t && |t[a].cells| == |t[a].sizes| then Layout(a, t[a].sizes, t[a].cells) else map[]
  }

  ghost predicate OwnsChunk(t: map<nat, Block>, a: nat, k: nat) {
    IsAwake(t, a) && k in ChunksOf(t, a)
  }

  ghost predicate OwnsHandle(t: map<nat, Block>, a: nat, h: nat) {
    IsAwake(t, a) && h in Members(t[a].cells)
  }

  /** An awake block is wholly mapped, each chunk to its own live handle. */
  ghost predicate Backed(d: Device, t: map<nat, Block>, a: nat)
    requires a in t
  {
    SubMap(ChunksOf(t, a), d.mapped) && Distinct(t[a].cells) && Members(t[a].cells) <= d.live
  }

  ghost predicate Reservations(d: Device, t: map<nat, Block>) {
    && (forall a :: a in d.reserved <==> IsLive(t, a))
    && (forall a :: IsLive(t, a) ==> d.reserved[a] == t[a].size && BlockOk(t[a]))
    && (forall a, b :: a in d.reserved && b in d.reserved && a != b ==> Apart(a, d.reserved[a], b, d.reserved[b]))
  }

  ghost predicate Sane(d: Device) {
    d.violations == 0 && Solid(d) && forall h :: h in d.live ==> h < d.calls
  }

  ghost predicate AllBacked(d: Device, t: map<nat, Block>) {
    forall a :: IsAwake(t, a) ==> Backed(d, t, a)
  }

  ghost predicate OneOwner(t: map<nat, Block>) {
    forall a, b, h :: OwnsHandle(t, a, h) && OwnsHandle(t, b, h) ==> a == b
  }

  ghost predicate ChunksOwned(d: Device, t: map<nat, Block>) {
    forall k :: k in d.mapped ==> exists a :: OwnsChunk(t, a, k)
  }

  ghost predicate HandlesOwned(d: Device, t: map<nat, Block>) {
    forall h :: h in d.live ==> exists a :: OwnsHandle(t, a, h)
  }

  /** Reservations are the live blocks and do not overlap; awake blocks are wholly mapped to live
      handles of their own; nothing else is mapped or live; the driver has refused nothing. */
  ghost predicate Inv(w: World) {
    && Sane(w.device)
    && Reservations(w.device, w.table)
    && AllBacked(w.device, w.table)
    && OneOwner(w.table)
    && ChunksOwned(w.device, w.table)
    && HandlesOwned(w.device, w.table)
  }

  // ----- consequences

  lemma ChunkInside(d: Device, t: map<nat, Block>, a: nat, k: nat)
    requires Reservations(d, t) && AllBacked(d, t) && OwnsChunk(t, a, k)
    ensures k in d.mapped && k in ChunksOf(t, a) && d.mapped[k] == ChunksOf(t, a)[k]
    ensures a <= k && d.mapped[k].size > 0 && k + d.mapped[k].size <= a + t[a].size
    ensures a in d.reserved && d.reserved[a] == t[a].size
  {
    assert IsLive(t, a) && Backed(d, t, a);
    LayoutRange(a, t[a].sizes, t[a].cells);
  }

  /** A sleeping block has nothing mapped in its reservation. */
  lemma AsleepIsVacant(w: World, a: nat)
    requires Inv(w) && IsLive(w.table, a) && !IsAwake(w.table, a)
    ensures Vacant(w.device, a, w.table[a].sizes)
  {
    forall k | k in w.device.mapped ensures Apart(a, w.device.reserved[a], k, w.device.mapped[k].size) {
      var b :| OwnsChunk(w.table, b, k);
      ChunkInside(w.device, w.table, b, k);
      assert Apart(a, w.device.reserved[a], b, w.device.reserved[b]);
    }
  }

  lemma {:induction false} LayoutCovers(base: nat, sizes: seq<nat>, hs: seq<nat>, x: nat) returns (k: nat)
    requires |sizes| == |hs| && Positive(sizes) && base <= x < base + Sum(sizes)
    ensures k in Layout(base, sizes, hs) && k <= x < k + Layout(base, sizes, hs)[k].size
    decreases |sizes|
  {
    var n := |sizes| - 1;
    var last := base + Sum(sizes[..n]);
    if x < last {
      k := LayoutCovers(base, sizes[..n], hs[..n], x);
      LayoutRange(base, sizes[..n], hs[..n]);
    } else {
      k := last;
    }
  }

  predicate MappedAt(d: Device, x: nat) {
    exists k :: k in d.mapped && k <= x < k + d.mapped[k].size
  }

  /** A live reservation is wholly mapped or wholly unmapped: address for address it is mapped
      exactly when the block is awake. */
  lemma WhollyMapped(w: World, a: nat, x: nat)
    requires Inv(w) && IsLive(w.table, a) && a <= x < a + w.table[a].size
    ensures MappedAt(w.device, x) <==> IsAwake(w.table, a)
  {
    if IsAwake(w.table, a) {
      assert Backed(w.device, w.table, a);
      var k := LayoutCovers(a, w.table[a].sizes, w.table[a].cells, x);
      assert k in ChunksOf(w.table, a);
    } else {
      AsleepIsVacant(w, a);
    }
  }

  lemma {:induction false} LayoutApart(base: nat, sizes: seq<nat>, hs: seq<nat>, k: nat, l: nat)
    requires |sizes| == |hs| && Positive(sizes) && k != l
    requires k in Layout(base, sizes, hs) && l in Layout(base, sizes, hs)
    ensures Apart(k, Layout(base, sizes, hs)[k].size, l, Layout(base, sizes, hs)[l].size)
    decreases |sizes|
  {
    var n := |sizes| - 1;
    var last := base + Sum(sizes[..n]);
    LayoutRange(base, sizes[..n], hs[..n]);
    if k != last && l != last {
      LayoutApart(base, sizes[..n], hs[..n], k, l);
    }
  }

  /** Mapped ranges are disjoint. */
  lemma MappedApart(w: World, k: nat, l: nat)
    requires Inv(w) && k in w.device.mapped && l in w.device.mapped && k != l
    ensures Apart(k, w.device.mapped[k].size, l, w.device.mapped[l].size)
  {
    var a :| OwnsChunk(w.table, a, k);
    var b :| OwnsChunk(w.table, b, l);
    OwnedApart(w.device, w.table, a, b, k, l);
  }

  lemma OwnedApart(d: Device, t: map<nat, Block>, a: nat, b: nat, k: nat, l: nat)
    requires Reservations(d, t) && AllBacked(d, t) && OwnsChunk(t, a, k) && OwnsChunk(t, b, l) && k != l
    ensures k in d.mapped && l in d.mapped && Apart(k, d.mapped[k].size, l, d.mapped[l].size)
  {
    ChunkInside(d, t, a, k);
    ChunkInside(d, t, b, l);
    if a == b {
      assert IsLive(t, a);
      LayoutApart(a, t[a].sizes, t[a].cells, k, l);
    } else {
      assert Apart(a, d.reserved[a], b, d.reserved[b]);
    }
  }

  /** With no live allocation left, the driver holds nothing for us. */
  lemma NothingLeft(w: World)
    requires Inv(w) && forall a :: !IsLive(w.table, a)
    ensures w.device.reserved == map[] && w.device.live == {} && w.device.mapped == map[] && w.device.violations == 0
  {
    assert forall a :: !IsAwake(w.table, a);
    assert forall a :: a !in w.device.reserved;
  }

  // ----- the four ways a block changes

  ghost predicate SameAwake(t: map<nat, Block>, t': map<nat, Block>) {
    && (forall x :: IsAwake(t', x) <==> IsAwake(t, x))
    && (forall x :: IsAwake(t, x) ==> x in t' && t'[x] == t[x])
  }

  lemma SameOwners(t: map<nat, Block>, t': map<nat, Block>)
    requires SameAwake(t, t')
    ensures forall x, k :: OwnsChunk(t', x, k) <==> OwnsChunk(t, x, k)
    ensures forall x, h :: OwnsHandle(t', x, h) <==> OwnsHandle(t, x, h)
  {
  }

  /** A step that changes neither awake blocks nor what is live or mapped. */
  lemma Unaffected(d: Device, t: map<nat, Block>, d': Device, t': map<nat, Block>)
    requires AllBacked(d, t) && OneOwner(t) && ChunksOwned(d, t) && HandlesOwned(d, t)
    requires d'.live == d.live && d'.mapped == d.mapped
    requires SameAwake(t, t')
    ensures AllBacked(d', t') && OneOwner(t') && ChunksOwned(d', t') && HandlesOwned(d', t')
  {
    SameOwners(t, t');
    forall x | IsAwake(t', x) ensures Backed(d', t', x) {
      assert Backed(d, t, x);
    }
  }

  lemma NotLive(d: Device, t: map<nat, Block>, a: nat, n: nat)
    requires Reservations(d, t) && n > 0 && Unreserved(d, a, n)
    ensures !IsLive(t, a) && a !in d.reserved
  {
    assert a in d.reserved ==> Apart(a, n, a, d.reserved[a]);
  }

  lemma AddAsleep(t: map<nat, Block>, a: nat, b: Block)
    requires !IsAwake(t, a) && !b.phase.Awake?
    ensures SameAwake(t, t[a := b])
  {
  }

  lemma SaneStays(d: Device, d': Device)
    requires Sane(d) && d.calls <= d'.calls && d' == d.(reserved := d'.reserved, calls := d'.calls)
    ensures Sane(d')
  {
  }

  lemma Register(w: World, a: nat, b: Block, w': World)
    requires Inv(w) && BlockOk(b) && b.phase.Asleep? && Unreserved(w.device, a, b.size)
    requires w.device.calls <= w'.device.calls
    requires w'.device == w.device.(reserved := w.device.reserved[a := b.size], calls := w'.device.calls)
    requires w'.table == w.table[a := b]
    ensures Inv(w')
  {
    NotLive(w.device, w.table, a, b.size);
    AddAsleep(w.table, a, b);
    SaneStays(w.device, w'.device);
    Unaffected(w.device, w.table, w'.device, w'.table);
    RegisterReservations(w.device, w.table, a, b, w'.device, w'.table);
  }

  lemma RegisterReservations(d: Device, t: map<nat, Block>, a: nat, b: Block, d': Device, t': map<nat, Block>)
    requires Reservations(d, t) && BlockOk(b) && !b.phase.Gone? && Unreserved(d, a, b.size) && !IsLive(t, a)
    requires d'.reserved == d.reserved[a := b.size] && t' == t[a := b]
    ensures Reservations(d', t')
  {
    assert forall x :: x != a ==> (IsLive(t', x) <==> IsLive(t, x));
  }

  lemma Unregister(w: World, a: nat, w': World)
    requires Inv(w) && IsLive(w.table, a) && !IsAwake(w.table, a)
    requires w.device.calls <= w'.device.calls
    requires w'.device == w.device.(reserved := w.device.reserved - {a}, calls := w'.device.calls)
    requires !IsLive(w'.table, a) && SameElsewhere(w.table, w'.table, a)
    ensures Inv(w')
  {
    Unaffected(w.device, w.table, w'.device, w'.table);
    assert forall x :: x != a ==> (IsLive(w'.table, x) <==> IsLive(w.table, x));
  }

  ghost predicate SameElsewhere(t: map<nat, Block>, t': map<nat, Block>, a: nat) {
    forall x :: x != a ==> (x in t' <==> x in t) && (x in t ==> t'[x] == t[x])
  }

  lemma Activate(w: World, a: nat, cells: seq<nat>, w': World)
    requires Inv(w) && IsLive(w.table, a) && !IsAwake(w.table, a)
    requires |cells| == |w.table[a].sizes| && Distinct(cells) && Members(cells) !! w.device.live
    requires forall i :: 0 <= i < |cells| ==> cells[i] < w'.device.calls
    requires w.device.calls <= w'.device.calls
    requires w'.device == w.device.(live := w.device.live + Members(cells),
                                    mapped := w.device.mapped + Layout(a, w.table[a].sizes, cells),
                                    calls := w'.device.calls)
    requires w'.table == w.table[a := w.table[a].(cells := cells, phase := Awake)]
    ensures Inv(w')
  {
    AsleepIsVacant(w, a);
    ActivateGrown(w.device, w.table, a, cells, w'.device, w'.table);
    GrownKeeps(w, a, w');
  }

  lemma ActivateGrown(d: Device, t: map<nat, Block>, a: nat, cells: seq<nat>, d': Device, t': map<nat, Block>)
    requires Sane(d) && IsLive(t, a) && !IsAwake(t, a) && Vacant(d, a, t[a].sizes)
    requires |cells| == |t[a].sizes| && Distinct(cells) && Members(cells) !! d.live
    requires d.calls <= d'.calls && forall i :: 0 <= i < |cells| ==> cells[i] < d'.calls
    requires d' == d.(live := d.live + Members(cells), mapped := d.mapped + Layout(a, t[a].sizes, cells),
                      calls := d'.calls)
    requires t' == t[a := t[a].(cells := cells, phase := Awake)]
    ensures Grown(d, t, a, d', t') && Sane(d')
  {
    var sizes := t[a].sizes;
    LayoutFresh(d, a, sizes, cells, |sizes|);
    assert sizes[..|sizes|] == sizes && cells[..|cells|] == cells;
    LayoutRange(a, sizes, cells);
    GrownSane(d, Layout(a, sizes, cells), cells, d');
  }

  lemma GrownSane(d: Device, l: map<nat, Chunk>, cells: seq<nat>, d': Device)
    requires Sane(d) && d.calls <= d'.calls && forall i :: 0 <= i < |cells| ==> cells[i] < d'.calls
    requires forall k :: k in l ==> l[k].size > 0
    requires d' == d.(live := d.live + Members(cells), mapped := d.mapped + l, calls := d'.calls)
    ensures Sane(d')
  {
  }

  lemma GrownKeeps(w: World, a: nat, w': World)
    requires Inv(w) && IsLive(w.table, a) && Grown(w.device, w.table, a, w'.device, w'.table)
    requires w'.device.reserved == w.device.reserved && Sane(w'.device)
    requires BlockOk(w'.table[a]) && w'.table[a].size == w.table[a].size
    ensures Inv(w')
  {
    SameReservations(w.device, w.table, w'.device, w'.table);
    ActivateBacked(w.device, w.table, a, w'.device, w'.table);
    ActivateOneOwner(w.device, w.table, a, w'.device, w'.table);
    ActivateChunksOwned(w.device, w.table, a, w'.device, w'.table);
    ActivateHandlesOwned(w.device, w.table, a, w'.device, w'.table);
  }

  /** `t'` is `t` with a new awake block at `a`, and `d'` is `d` with what backs it. */
  ghost predicate Grown(d: Device, t: map<nat, Block>, a: nat, d': Device, t': map<nat, Block>) {
    && IsAwake(t', a) && !IsAwake(t, a) && SameElsewhere(t, t', a)
    && Distinct(t'[a].cells) && Members(t'[a].cells) !! d.live && ChunksOf(t', a).Keys !! d.mapped.Keys
    && d'.live == d.live + Members(t'[a].cells) && d'.mapped == d.mapped + ChunksOf(t', a)
  }

  lemma ActivateBacked(d: Device, t: map<nat, Block>, a: nat, d': Device, t': map<nat, Block>)
    requires AllBacked(d, t) && Grown(d, t, a, d', t')
    ensures AllBacked(d', t')
  {
    forall x | IsAwake(t', x) ensures Backed(d', t', x) {
      if x != a {
        assert Backed(d, t, x) && ChunksOf(t', x) == ChunksOf(t, x);
      }
    }
  }

  lemma ActivateOneOwner(d: Device, t: map<nat, Block>, a: nat, d': Device, t': map<nat, Block>)
    requires AllBacked(d, t) && OneOwner(t) && Grown(d, t, a, d', t')
    ensures OneOwner(t')
  {
    forall x, y, h | OwnsHandle(t', x, h) && OwnsHandle(t', y, h) ensures x == y {
      if x != a {
        assert OwnsHandle(t, x, h) && Backed(d, t, x);
      }
      if y != a {
        assert OwnsHandle(t, y, h) && Backed(d, t, y);
      }
    }
  }

  lemma ActivateChunksOwned(d: Device, t: map<nat, Block>, a: nat, d': Device, t': map<nat, Block>)
    requires ChunksOwned(d, t) && Grown(d, t, a, d', t')
    ensures ChunksOwned(d', t')
  {
    forall k | k in d'.mapped ensures exists x :: OwnsChunk(t', x, k) {
      if k in ChunksOf(t', a) {
        assert OwnsChunk(t', a, k);
      } else {
        var x :| OwnsChunk(t, x, k);
        assert OwnsChunk(t', x, k);
      }
    }
  }

  lemma ActivateHandlesOwned(d: Device, t: map<nat, Block>, a: nat, d': Device, t': map<nat, Block>)
    requires HandlesOwned(d, t) && Grown(d, t, a, d', t')
    ensures HandlesOwned(d', t')
  {
    forall h | h in d'.live ensures exists x :: OwnsHandle(t', x, h) {
      if h in Members(t'[a].cells) {
        assert OwnsHandle(t', a, h);
      } else {
        var x :| OwnsHandle(t, x, h);
        assert OwnsHandle(t', x, h);
      }
    }
  }

  /** A step that changes neither which blocks are live nor their sizes. */
  lemma SameReservations(d: Device, t: map<nat, Block>, d': Device, t': map<nat, Block>)
    requires Reservations(d, t) && d'.reserved == d.reserved
    requires forall x :: IsLive(t', x) <==> IsLive(t, x)
    requires forall x :: IsLive(t', x) && IsLive(t, x) ==> t'[x].size == t[x].size && BlockOk(t'[x])
    ensures Reservations(d', t')
  {
  }

  /** Chunks of different blocks do not meet. */
  lemma ChunksApart(d: Device, t: map<nat, Block>, a: nat, b: nat)
    requires Reservations(d, t) && AllBacked(d, t) && IsAwake(t, a) && IsAwake(t, b) && a != b
    ensures ChunksOf(t, a).Keys !! ChunksOf(t, b).Keys
  {
    if k :| k in ChunksOf(t, a) && k in ChunksOf(t, b) {
      ChunkInside(d, t, a, k);
      ChunkInside(d, t, b, k);
      assert false;
    }
  }

  lemma Deactivate(w: World, a: nat, w': World)
    requires Inv(w) && IsAwake(w.table, a)
    requires w.device.calls <= w'.device.calls
    requires w'.device == w.device.(live := w.device.live - Members(w.table[a].cells),
                                    mapped := w.device.mapped - ChunksOf(w.table, a).Keys, calls := w'.device.calls)
    requires w'.table == w.table[a := w.table[a].(phase := Asleep)]
    ensures Inv(w')
  {
    assert forall x :: IsLive(w'.table, x) <==> IsLive(w.table, x);
    DeactivateBacked(w.device, w.table, a, w'.device, w'.table);
    DeactivateOwned(w.device, w.table, a, w'.device, w'.table);
  }

  /** `t'` is `t` without the awake block at `a`, and `d'` is `d` without what backed it. */
  ghost predicate Shrunk(d: Device, t: map<nat, Block>, a: nat, d': Device, t': map<nat, Block>) {
    && IsAwake(t, a) && !IsAwake(t', a) && SameElsewhere(t, t', a)
    && d'.live == d.live - Members(t[a].cells) && d'.mapped == d.mapped - ChunksOf(t, a).Keys
  }

  lemma DeactivateBacked(d: Device, t: map<nat, Block>, a: nat, d': Device, t': map<nat, Block>)
    requires Reservations(d, t) && AllBacked(d, t) && OneOwner(t) && Shrunk(d, t, a, d', t')
    ensures AllBacked(d', t')
  {
    forall x | IsAwake(t', x) ensures Backed(d', t', x) {
      ChunksApart(d, t, a, x);
      assert Backed(d, t, x) && ChunksOf(t', x) == ChunksOf(t, x);
      forall h | h in Members(t[x].cells) ensures h in d'.live {
        assert OwnsHandle(t, x, h);
        assert h in Members(t[a].cells) ==> OwnsHandle(t, a, h);
      }
    }
  }

  lemma DeactivateOwned(d: Device, t: map<nat, Block>, a: nat, d': Device, t': map<nat, Block>)
    requires OneOwner(t) && ChunksOwned(d, t) && HandlesOwned(d, t) && Shrunk(d, t, a, d', t')
    ensures OneOwner(t') && ChunksOwned(d', t') && HandlesOwned(d', t')
  {
    forall x, h | OwnsHandle(t', x, h) ensures OwnsHandle(t, x, h) {
    }
    forall k | k in d'.mapped ensures exists x :: OwnsChunk(t', x, k) {
      var x :| OwnsChunk(t, x, k);
      assert x != a && OwnsChunk(t', x, k);
    }
    forall h | h in d'.live ensures exists x :: OwnsHandle(t', x, h) {
      var x :| OwnsHandle(t, x, h);
      assert x != a && OwnsHandle(t', x, h);
    }
  }

  // ----- the entry points

  lemma SleepKeeps(w: World, c: Config, a: nat)
    requires Inv(w) && IsAwake(w.table, a)
    requires FirstError(Teardown(w.device, c.fate, a, w.table[a].sizes, w.table[a].cells)) == OK
    ensures Inv(Sleep(w, c, a).0)
    ensures Sleep(w, c, a).1 == (w.err != OK)
  {
    var b := w.table[a];
    assert IsLive(w.table, a) && Backed(w.device, w.table, a);
    TeardownRemoves(w.device, c.fate, w.err, a, b.sizes, b.cells);
    Deactivate(w, a, Sleep(w, c, a).0);
  }

  lemma WakeKeeps(w: World, c: Config, a: nat)
    requires Inv(w) && Safe(w, c, WakeOp(a))
    ensures Inv(Wake(w, c, a).0)
  {
    var b := w.table[a];
    AsleepIsVacant(w, a);
    var o := CreateAndMap(w.device, c.fate, w.err, a, b.sizes, b.cells);
    var w' := Wake(w, c, a).0;
    if w.err == OK {
      AllOrNothing(w.device, c.fate, a, b.sizes, b.cells);
    }
    if o.err == OK {
      Activate(w, a, o.cells, w');
    } else {
      FailedWake(w, a, o.cells, w');
    }
  }

  /** A failed wake-up changes nothing but the dead contents of the block's handle cells. */
  lemma FailedWake(w: World, a: nat, cells: seq<nat>, w': World)
    requires Inv(w) && IsLive(w.table, a) && !IsAwake(w.table, a) && |cells| == |w.table[a].sizes|
    requires w.device.calls <= w'.device.calls && w'.device == w.device.(calls := w'.device.calls)
    requires w'.table == w.table[a := w.table[a].(cells := cells, phase := Asleep)]
    ensures Inv(w')
  {
    assert forall x :: IsLive(w'.table, x) <==> IsLive(w.table, x);
    Unaffected(w.device, w.table, w'.device, w'.table);
  }

  lemma FreeKeeps(w: World, c: Config, a: nat)
    requires Inv(w) && IsAwake(w.table, a) && Safe(w, c, FreeOp(a, w.table[a].size))
    ensures Inv(Free(w, c, a, w.table[a].size))
    ensures !IsLive(Free(w, c, a, w.table[a].size).table, a)
  {
    var b := w.table[a];
    assert IsLive(w.table, a) && Backed(w.device, w.table, a);
    var (d, err) := UnmapAndRelease(w.device, c.fate, w.err, a, b.sizes, b.cells);
    FirstErrorAppend(Teardown(w.device, c.fate, a, b.sizes, b.cells), [DoAddressFree(d, c.fate, a, b.size).1]);
    TeardownRemoves(w.device, c.fate, w.err, a, b.sizes, b.cells);
    var mid := World(d, err, w.table[a := b.(phase := Asleep)]);
    Deactivate(w, a, mid);
    FreedAfter(w, c, a, mid);
  }

  /** Giving the address range of an unmapped block back, with its size. */
  lemma FreedAfter(w: World, c: Config, a: nat, mid: World)
    requires Inv(mid) && IsLive(mid.table, a) && !IsAwake(mid.table, a) && a in w.table
    requires var (d, err) := UnmapAndRelease(w.device, c.fate, w.err, a, w.table[a].sizes, w.table[a].cells);
             mid == World(d, err, w.table[a := w.table[a].(phase := Asleep)])
    requires DoAddressFree(mid.device, c.fate, a, mid.table[a].size).1 == OK
    ensures Inv(Free(w, c, a, w.table[a].size))
  {
    AsleepIsVacant(mid, a);
    Unregister(mid, a, Free(w, c, a, w.table[a].size));
  }

  /** The addresses a device knows: reservations are not empty, and mappings lie inside them. */
  ghost predicate Orderly(d: Device) {
    && (forall r :: r in d.reserved ==> d.reserved[r] > 0)
    && (forall k :: k in d.mapped ==> Inside(d, k, d.mapped[k].size))
  }

  /** A reservation lands where nothing is reserved; a failed one leaves nothing reserved, unless a
      misaligned one could not be given back. */
  lemma ReserveRocmAdds(d: Device, f: Fate, size: nat, alignment: nat)
    requires size > 0 && Orderly(d)
    ensures var (e, s, a) := ReserveRocm(d, f, size, alignment);
            && d.calls <= e.calls
            && (s != OK ==> (e == d.(calls := e.calls) <==> FirstError(ReserveUndo(d, f, size, alignment)) == OK))
            && (s != OK ==> e == d.(reserved := e.reserved, calls := e.calls))
            && (s != OK ==> (e.reserved == d.reserved <==> FirstError(ReserveUndo(d, f, size, alignment)) == OK))
            && (s == OK ==> a > 0 && (alignment > 0 ==> a % alignment == 0) && Unreserved(d, a, size)
                            && e == d.(reserved := d.reserved[a := size], calls := e.calls))
  {
    var (e, s, a) := DoReserve(d, f, size, alignment);
    if s != OK && alignment != 0 {
      var (g, t, b) := DoReserve(e, f, size, 0);
      if t == OK && b % alignment != 0 {
        UndoReserve(d, g, f, b, size);
      }
    }
  }

  /** Giving a new reservation back is legal, and restores the device unless the call fails. */
  lemma UndoReserve(d: Device, g: Device, f: Fate, b: nat, size: nat)
    requires size > 0 && Unreserved(d, b, size) && Orderly(d)
    requires g == d.(reserved := d.reserved[b := size], calls := g.calls)
    ensures b !in d.reserved
    ensures var (e, s) := DoAddressFree(g, f, b, size);
            e == if s == OK then d.(calls := g.calls + 1) else g.(calls := g.calls + 1)
  {
    assert b in d.reserved ==> Apart(b, size, b, d.reserved[b]);
    forall k | k in g.mapped ensures Apart(b, size, k, g.mapped[k].size) {
      var r :| r in d.reserved && r <= k && k + d.mapped[k].size <= r + d.reserved[r];
      assert Apart(b, size, r, d.reserved[r]);
    }
    assert g.reserved - {b} == d.reserved;
  }

  lemma MappedInside(w: World)
    requires Inv(w)
    ensures Orderly(w.device)
  {
    forall k | k in w.device.mapped ensures Inside(w.device, k, w.device.mapped[k].size) {
      var a :| OwnsChunk(w.table, a, k);
      ChunkInside(w.device, w.table, a, k);
    }
    forall r | r in w.device.reserved ensures w.device.reserved[r] > 0 {
      assert IsLive(w.table, r);
    }
  }

  lemma TickKeeps(w: World, d: Device, err: int)
    requires Inv(w) && w.device.calls <= d.calls && d == w.device.(calls := d.calls)
    ensures Inv(World(d, err, w.table))
  {
    Unaffected(w.device, w.table, d, w.table);
  }

  /** Allocation keeps the invariant whether it succeeds, fails early, or fails after the block was
      registered. */
  lemma MallocKeeps(w: World, c: Config, size: nat, hostOk: bool)
    requires Inv(w) && Safe(w, c, MallocOp(size, hostOk))
    ensures Inv(Malloc(w, c, size, hostOk).0)
  {
    var f := c.fate;
    var (d1, s1) := DoGranularity(w.device, f);
    var err1 := Checked(w.err, s1);
    TickKeeps(w, d1, err1);
    if err1 == OK {
      var w1 := World(d1, OK, w.table);
      MallocReserved(w1, c, size);
      var (d2, s2, a) := ReserveRocm(d1, f, AlignUp(size, c.granularity), c.granularity);
      if s2 == OK && hostOk {
        MallocPlaced(w1, c, size);
      }
    }
  }

  /** Whatever the driver does, a returned block is awake, fresh and large enough, and null is returned
      exactly when no block becomes awake. */
  lemma MallocReturns(w: World, c: Config, size: nat, hostOk: bool)
    requires Inv(w) && NoWrap(size, c.granularity, c.setting)
    ensures var (w', p) := Malloc(w, c, size, hostOk);
            p != 0 ==> IsAwake(w'.table, p) && !IsLive(w.table, p) && size <= w'.table[p].size
    ensures var (w', p) := Malloc(w, c, size, hostOk);
            p == 0 <==> forall a :: IsAwake(w'.table, a) ==> IsAwake(w.table, a)
  {
    var (d1, s1) := DoGranularity(w.device, c.fate);
    TickKeeps(w, d1, OK);
    if Checked(w.err, s1) == OK {
      MallocReserved(World(d1, OK, w.table), c, size);
    }
    var (w', p) := Malloc(w, c, size, hostOk);
    assert p != 0 ==> IsAwake(w'.table, p) && !IsAwake(w.table, p);
  }

  /** A reservation for an allocation is new, and the block in it has nothing mapped. */
  lemma MallocReserved(w: World, c: Config, size: nat)
    requires Inv(w) && w.err == OK && NoWrap(size, c.granularity, c.setting)
    ensures var aligned := AlignUp(size, c.granularity);
            var (d2, s2, a) := ReserveRocm(w.device, c.fate, aligned, c.granularity);
            && w.device.calls <= d2.calls && size <= aligned
            && (s2 != OK ==> (Inv(World(d2, s2, w.table)) <==>
                              FirstError(ReserveUndo(w.device, c.fate, aligned, c.granularity)) == OK))
            && (s2 != OK ==> (d2.reserved == w.device.reserved <==>
                              FirstError(ReserveUndo(w.device, c.fate, aligned, c.granularity)) == OK))
            && (s2 == OK ==>
                  && a > 0 && !IsLive(w.table, a) && Unreserved(w.device, a, aligned)
                  && d2 == w.device.(reserved := w.device.reserved[a := aligned], calls := d2.calls))
  {
    var aligned := AlignUp(size, c.granularity);
    PlanTiles(size, c.granularity, c.setting);
    MappedInside(w);
    ReserveRocmAdds(w.device, c.fate, aligned, c.granularity);
    var (d2, s2, a) := ReserveRocm(w.device, c.fate, aligned, c.granularity);
    if s2 != OK {
      if d2.reserved == w.device.reserved {
        TickKeeps(w, d2, s2);
      } else if Inv(World(d2, s2, w.table)) {
        SameReserved(w, World(d2, s2, w.table));
      }
    } else {
      NotLive(w.device, w.table, a, aligned);
    }
  }

  /** The same blocks are live, with the same sizes. */
  ghost predicate SameLive(t: map<nat, Block>, t': map<nat, Block>) {
    && (forall x :: IsLive(t', x) <==> IsLive(t, x))
    && (forall x :: IsLive(t, x) && IsLive(t', x) ==> t'[x].size == t[x].size)
  }

  /** The live blocks determine the reservations. */
  lemma SameReserved(w: World, w': World)
    requires Reservations(w.device, w.table) && Reservations(w'.device, w'.table) && SameLive(w.table, w'.table)
    ensures w'.device.reserved == w.device.reserved
  {
    forall x ensures x in w'.device.reserved <==> x in w.device.reserved {
      assert IsLive(w'.table, x) <==> IsLive(w.table, x);
    }
    forall x | x in w.device.reserved ensures w'.device.reserved[x] == w.device.reserved[x] {
      assert IsLive(w.table, x) && IsLive(w'.table, x);
    }
  }

  /** A new reservation with a block registered in it. */
  lemma RegisterNew(w: World, a: nat, d2: Device, aligned: nat, sizes: seq<nat>, cells: seq<nat>) returns (mid: World)
    requires Inv(w) && w.device.calls <= d2.calls && Unreserved(w.device, a, aligned)
    requires d2 == w.device.(reserved := w.device.reserved[a := aligned], calls := d2.calls)
    requires Positive(sizes) && Sum(sizes) == aligned > 0 && |cells| == |sizes|
    ensures Inv(mid) && mid == World(d2, OK, w.table[a := Block(aligned, sizes, cells, Asleep)])
    ensures Vacant(d2, a, sizes) && !IsLive(w.table, a)
  {
    var b := Block(aligned, sizes, cells, Asleep);
    mid := World(d2, OK, w.table[a := b]);
    NotLive(w.device, w.table, a, aligned);
    Register(w, a, b, mid);
    AsleepIsVacant(mid, a);
  }

  /** A block is created and mapped all or nothing, and on failure its range is given back. */
  lemma MallocPlaced(w: World, c: Config, size: nat)
    requires Inv(w) && w.err == OK && NoWrap(size, c.granularity, c.setting)
    requires var aligned, sizes := AlignUp(size, c.granularity), Plan(size, c.granularity, c.setting);
             var (d2, s2, a) := ReserveRocm(w.device, c.fate, aligned, c.granularity);
             s2 == OK && FirstError(BlockStatuses(d2, c.fate, a, aligned, sizes)) == OK
    ensures var aligned, sizes := AlignUp(size, c.granularity), Plan(size, c.granularity, c.setting);
            var (d2, s2, a) := ReserveRocm(w.device, c.fate, aligned, c.granularity);
            var o := CreateAndMap(d2, c.fate, OK, a, sizes, seq(|sizes|, _ => 0));
            && (o.err == OK ==> Inv(World(o.device, OK, w.table[a := Block(aligned, sizes, o.cells, Awake)])))
            && (o.err != OK ==>
                  var (d3, s3) := DoAddressFree(o.device, c.fate, a, aligned);
                  s3 == OK && Inv(World(d3, o.err, w.table[a := Block(aligned, sizes, o.cells, Gone)])))
  {
    var aligned, sizes := AlignUp(size, c.granularity), Plan(size, c.granularity, c.setting);
    PlanTiles(size, c.granularity, c.setting);
    MallocReserved(w, c, size);
    var (d2, s2, a) := ReserveRocm(w.device, c.fate, aligned, c.granularity);
    var cells := seq(|sizes|, _ => 0);
    var mid := RegisterNew(w, a, d2, aligned, sizes, cells);
    var o := CreateAndMap(d2, c.fate, OK, a, sizes, cells);
    FirstErrorAppend(Aftermath(d2, c.fate, a, sizes),
                     if o.err == OK then [] else [DoAddressFree(o.device, c.fate, a, aligned).1]);
    AllOrNothing(d2, c.fate, a, sizes, cells);
    Placed(mid, c, a, Block(aligned, sizes, cells, Asleep), w.table, o);
  }

  lemma Placed(mid: World, c: Config, a: nat, b: Block, t: map<nat, Block>, o: Outcome)
    requires Inv(mid) && mid.table == t[a := b] && b.phase.Asleep?
    requires AllOrNone(mid.device, a, b.sizes, o)
    requires o.err != OK ==> DoAddressFree(o.device, c.fate, a, b.size).1 == OK
    ensures o.err == OK ==> Inv(World(o.device, OK, t[a := Block(b.size, b.sizes, o.cells, Awake)]))
    ensures o.err != OK ==>
              var d3 := DoAddressFree(o.device, c.fate, a, b.size).0;
              Inv(World(d3, o.err, t[a := Block(b.size, b.sizes, o.cells, Gone)]))
  {
    if o.err == OK {
      Overwrite(t, a, b, Block(b.size, b.sizes, o.cells, Awake));
      Activate(mid, a, o.cells, World(o.device, OK, t[a := Block(b.size, b.sizes, o.cells, Awake)]));
    } else {
      Overwrite(t, a, b, Block(b.size, b.sizes, o.cells, Gone));
      GiveBack(mid, c, a, o.device, o.err, Block(b.size, b.sizes, o.cells, Gone));
    }
  }

  lemma Overwrite(t: map<nat, Block>, a: nat, b: Block, b': Block)
    ensures t[a := b][a := b'] == t[a := b']
  {
  }

  /** The address range of a block that could not be mapped is freed again. */
  lemma GiveBack(w: World, c: Config, a: nat, d: Device, err: int, b: Block)
    requires Inv(w) && IsLive(w.table, a) && !IsAwake(w.table, a)
    requires w.device.calls <= d.calls && d == w.device.(calls := d.calls) && b.phase.Gone?
    requires DoAddressFree(d, c.fate, a, w.table[a].size).1 == OK
    ensures Inv(World(DoAddressFree(d, c.fate, a, w.table[a].size).0, err, w.table[a := b]))
  {
    AsleepIsVacant(w, a);
    Unregister(w, a, World(DoAddressFree(d, c.fate, a, w.table[a].size).0, err, w.table[a := b]));
  }

  // ----- whole runs

  /** Every safe step keeps the invariant. */
  lemma StepKeeps(w: World, c: Config, op: Op)
    requires Inv(w) && Safe(w, c, op)
    ensures Inv(Step(w, c, op))
  {
    match op
    case MallocOp(size, hostOk) => MallocKeeps(w, c, size, hostOk);
    case SleepOp(a) => SleepKeeps(w, c, a);
    case WakeOp(a) => WakeKeeps(w, c, a);
    case FreeOp(a, size) => FreeKeeps(w, c, a);
  }

  /** `ws` is a run of safe steps from an empty allocator. */
  ghost predicate Run(c: Config, ops: seq<Op>, ws: seq<World>) {
    && |ws| == |ops| + 1
    && ws[0] == World(Device(map[], {}, map[], 0, 0), OK, map[])
    && forall i :: 0 <= i < |ops| ==> Safe(ws[i], c, ops[i]) && ws[i + 1] == Step(ws[i], c, ops[i])
  }

  /** Allocator safety: the invariant holds at every point of every run. */
  lemma {:induction false} RunSafe(c: Config, ops: seq<Op>, ws: seq<World>, i: nat)
    requires Run(c, ops, ws) && i < |ws|
    ensures Inv(ws[i])
    decreases i
  {
    if i > 0 {
      RunSafe(c, ops, ws, i - 1);
      StepKeeps(ws[i - 1], c, ops[i - 1]);
    }
  }

  /** In every run, live reservations are wholly mapped or wholly unmapped, and mapped ranges do not
      overlap. */
  lemma RunMapsWhole(c: Config, ops: seq<Op>, ws: seq<World>, i: nat, a: nat, x: nat, k: nat, l: nat)
    requires Run(c, ops, ws) && i < |ws|
    ensures IsLive(ws[i].table, a) && a <= x < a + ws[i].table[a].size ==>
              (MappedAt(ws[i].device, x) <==> IsAwake(ws[i].table, a))
    ensures k in ws[i].device.mapped && l in ws[i].device.mapped && k != l ==>
              Apart(k, ws[i].device.mapped[k].size, l, ws[i].device.mapped[l].size)
  {
    RunSafe(c, ops, ws, i);
    if IsLive(ws[i].table, a) && a <= x < a + ws[i].table[a].size {
      WhollyMapped(ws[i], a, x);
    }
    if k in ws[i].device.mapped && l in ws[i].device.mapped && k != l {
      MappedApart(ws[i], k, l);
    }
  }

  /** After all frees nothing remains: no reservation, no handle, no mapping, no refused call. */
  lemma RunLeavesNothing(c: Config, ops: seq<Op>, ws: seq<World>)
    requires Run(c, ops, ws)
    requires forall a :: !IsLive(ws[|ops|].table, a)
    ensures var d := ws[|ops|].device;
            d.reserved == map[] && d.live == {} && d.mapped == map[] && d.violations == 0
  {
    RunSafe(c, ops, ws, |ops|);
    NothingLeft(ws[|ops|]);
  }
}
