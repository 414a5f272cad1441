/** The allocator's entry points: what each does to the device, to the sticky error code and to the
    table of allocations the Python side keeps. */
module Allocator {
  import opened Sums
  import opened Driver
  import opened Mapping
  import opened Chunking

  /** `Gone` marks a table entry whose allocation failed after it had been registered. */
  datatype Phase = Awake | Asleep | Gone

  /** One allocation: rounded size, chunk sizes and the contents of its handle cells. */
  datatype Block = Block(size: nat, sizes: seq<nat>, cells: seq<nat>, phase: Phase)

  datatype World = World(device: Device, err: int, table: map<nat, Block>)

  /** What does not change: the driver's behaviour, its granularity and the chunk-size setting. */
  datatype Config = Config(fate: Fate, granularity: nat, setting: Setting)

  function Checked(err: int, status: int): int {
    if status != OK then status else err
  }

  /** `reserve_rocm_address`: with the alignment first, then wherever the driver likes as long as
      the address turns out aligned. */
  function ReserveRocm(d: Device, f: Fate, size: nat, alignment: nat): (Device, int, nat) {
    var (e, s, a) := DoReserve(d, f, size, alignment);
    if s == OK || alignment == 0 then (e, s, a)
    else
      var (g, t, b) := DoReserve(e, f, size, 0);
      if t != OK then (g, t, 0)
      else if b % alignment == 0 then (g, OK, b)
      else (DoAddressFree(g, f, b, size).0, NOT_SUPPORTED, 0)
  }

  /** `my_malloc`; the null pointer is 0. `hostOk` says whether the host allocations and the Python
      callback that registers the block succeed. */
  function Malloc(w: World, c: Config, size: nat, hostOk: bool): (World, nat)
    requires NoWrap(size, c.granularity, c.setting)
  {
    var f := c.fate;
    var (d1, s1) := DoGranularity(w.device, f);
    var err1 := Checked(w.err, s1);
    if err1 != OK then (World(d1, err1, w.table), 0)
    else
      var aligned, sizes := AlignUp(size, c.granularity), Plan(size, c.granularity, c.setting);
      var (d2, s2, a) := ReserveRocm(d1, f, aligned, c.granularity);
      if s2 != OK then (World(d2, s2, w.table), 0)
      else if !hostOk then (World(d2, OK, w.table), 0)
      else
        var o := CreateAndMap(d2, f, OK, a, sizes, seq(|sizes|, _ => 0));
        if o.err != OK then
          var (d3, s3) := DoAddressFree(o.device, f, a, aligned);
          (World(d3, Checked(o.err, s3), w.table[a := Block(aligned, sizes, o.cells, Gone)]), 0)
        else
          (World(o.device, OK, w.table[a := Block(aligned, sizes, o.cells, Awake)]), a)
  }

  /** `python_unmap_and_release` on a registered block, and whether it raises. */
  function Sleep(w: World, c: Config, a: nat): (World, bool)
    requires a in w.table
  {
    var b := w.table[a];
    var (d, err) := UnmapAndRelease(w.device, c.fate, w.err, a, b.sizes, b.cells);
    (World(d, OK, w.table[a := b.(phase := Asleep)]), err != OK)
  }

  /** `python_create_and_map` on a registered block, and whether it raises. */
  function Wake(w: World, c: Config, a: nat): (World, bool)
    requires a in w.table && |w.table[a].cells| == |w.table[a].sizes|
  {
    var b := w.table[a];
    var o := CreateAndMap(w.device, c.fate, w.err, a, b.sizes, b.cells);
    var phase := if o.err == OK then Awake else Asleep;
    (World(o.device, OK, w.table[a := b.(cells := o.cells, phase := phase)]), o.err != OK)
  }

  /** `my_free`, which is handed the size by its caller. */
  function Free(w: World, c: Config, a: nat, size: nat): World
    requires a in w.table
  {
    var b := w.table[a];
    var (d, err) := UnmapAndRelease(w.device, c.fate, w.err, a, b.sizes, b.cells);
    var (e, s) := DoAddressFree(d, c.fate, a, size);
    World(e, Checked(err, s), w.table - {a})
  }

  /** The allocator's globals, changed in place by its entry points. */
  class State {
    const config: Config
    var device: Device
    var errorCode: int
    var table: map<nat, Block>

    constructor (config: Config)
      ensures this.config == config
      ensures Value() == World(Device(map[], {}, map[], 0, 0), OK, map[])
    {
      this.config := config;
      device, errorCode, table := Device(map[], {}, map[], 0, 0), OK, map[];
    }

    ghost function Value(): World
      reads this
    {
      World(device, errorCode, table)
    }

    /** The driver wrapper that records a failing status. */
    method Check(status: int)
      modifies this`errorCode
      ensures errorCode == Checked(old(errorCode), status)
    {
      if status != OK {
        errorCode := status;
      }
    }

    method ReleaseCells(cells: array<nat>, n: nat) returns (statuses: seq<int>)
      requires n <= cells.Length
      modifies this`device
      ensures (device, statuses) == ReleaseAll(old(device), config.fate, cells[..n])
    {
      statuses := [];
      for j := 0 to n
        invariant (device, statuses) == ReleaseAll(old(device), config.fate, cells[..j])
      {
        assert cells[..j + 1][..j] == cells[..j];
        var (d, s) := DoRelease(device, config.fate, cells[j]);
        device, statuses := d, statuses + [s];
      }
    }

    method UnmapChunks(base: nat, sizes: seq<nat>, n: nat) returns (statuses: seq<int>)
      requires n <= |sizes|
      modifies this`device
      ensures (device, statuses) == UnmapAll(old(device), config.fate, base, sizes[..n])
    {
      var unmapped := 0;
      statuses := [];
      for j := 0 to n
        invariant unmapped == Sum(sizes[..j])
        invariant (device, statuses) == UnmapAll(old(device), config.fate, base, sizes[..j])
      {
        assert sizes[..j + 1][..j] == sizes[..j];
        var (d, s) := DoUnmap(device, config.fate, base + unmapped, sizes[j]);
        device, statuses := d, statuses + [s];
        unmapped := unmapped + sizes[j];
      }
    }

    /** Creates all handles, or releases those created so far and reports false. With an error
        left over from an earlier call the check after the first creation already fails. */
    method CreateChunks(sizes: seq<nat>, cells: array<nat>) returns (ok: bool)
      requires cells.Length == |sizes|
      modifies this`device, this`errorCode, cells
      ensures old(errorCode) == OK ==>
                var (e, s, hs) := CreateAll(old(device), config.fate, sizes);
                && errorCode == s && ok == (s == OK)
                && cells[..] == hs + old(cells[..])[|hs|..]
                && device == if ok then e else ReleaseAll(e, config.fate, hs).0
      ensures old(errorCode) != OK && sizes == [] ==>
                ok && device == old(device) && errorCode == old(errorCode)
      ensures old(errorCode) != OK && sizes != [] ==>
                && !ok
                && Outcome(device, errorCode, cells[..]) ==
                   Abandon(old(device), config.fate, old(errorCode), sizes, old(cells[..]))
    {
      ghost var d0 := device;
      for i := 0 to |sizes|
        invariant errorCode == old(errorCode) && (i > 0 ==> errorCode == OK)
        invariant CreateAll(d0, config.fate, sizes[..i]) == (device, OK, cells[..i])
        invariant cells[i..] == old(cells[..])[i..]
      {
        assert sizes[..i + 1][..i] == sizes[..i];
        ghost var before, hs := cells[..], cells[..i];
        var (e, s, h) := DoCreate(device, config.fate, sizes[i]);
        device := e;
        if s == OK {
          cells[i] := h;
          assert cells[..i + 1] == hs + [h];
        }
        Check(s);
        if errorCode != OK {
          if old(errorCode) == OK {
            CreateAllStops(d0, config.fate, sizes, i + 1);
          }
          assert cells[..] == cells[..i] + cells[i..];
          assert i == 0 ==> before == old(cells[..]);
          var _ := ReleaseCells(cells, i);
          return false;
        }
      }
      assert sizes[..|sizes|] == sizes && cells[..] == cells[..|sizes|];
      return true;
    }

    /** Maps chunk `i`, after those before it. */
    method MapOne(base: nat, total: nat, sizes: seq<nat>, cells: array<nat>, i: nat, ghost d0: Device)
      requires cells.Length == |sizes| && i < |sizes| && errorCode == OK && total == Sum(sizes[..i])
      requires MapAll(d0, config.fate, base, sizes[..i], cells[..i]) == (device, OK, i)
      modifies this`device, this`errorCode
      ensures MapAll(d0, config.fate, base, sizes[..i + 1], cells[..i + 1])
           == (device, errorCode, if errorCode == OK then i + 1 else i)
      ensures Sum(sizes[..i + 1]) == total + sizes[i]
    {
      assert cells[..][..i] == cells[..i] && cells[..][..i + 1] == cells[..i + 1];
      MapAllNext(d0, config.fate, base, sizes, cells[..], i, device);
      var (e, s) := DoMap(device, config.fate, base + total, sizes[i], cells[i]);
      device := e;
      Check(s);
    }

    /** Maps all chunks, or unmaps those mapped so far, releases all handles and reports false. */
    method MapChunks(base: nat, sizes: seq<nat>, cells: array<nat>) returns (ok: bool)
      requires cells.Length == |sizes| && (sizes != [] ==> errorCode == OK)
      modifies this`device, this`errorCode
      ensures var (g, t, k) := MapAll(old(device), config.fate, base, sizes, cells[..]);
              && errorCode == Checked(old(errorCode), t) && ok == (t == OK)
              && device ==
                 if ok then g else ReleaseAll(UnmapAll(g, config.fate, base, sizes[..k]).0, config.fate, cells[..]).0
    {
      ghost var d0 := device;
      var total := 0;
      for i := 0 to |sizes|
        invariant errorCode == old(errorCode) && total == Sum(sizes[..i])
        invariant MapAll(d0, config.fate, base, sizes[..i], cells[..i]) == (device, OK, i)
      {
        MapOne(base, total, sizes, cells, i, d0);
        if errorCode != OK {
          UndoMapping(base, sizes, cells, i, d0);
          return false;
        }
        total := total + sizes[i];
      }
      assert sizes[..|sizes|] == sizes && cells[..] == cells[..|sizes|];
      return true;
    }

    /** The rollback of a mapping that failed at chunk `i`. */
    method UndoMapping(base: nat, sizes: seq<nat>, cells: array<nat>, i: nat, ghost d0: Device)
      requires cells.Length == |sizes| && i < |sizes|
      requires var (g, t, k) := MapAll(d0, config.fate, base, sizes[..i + 1], cells[..i + 1]);
               g == device && t != OK && k == i
      modifies this`device
      ensures var (g, t, k) := MapAll(d0, config.fate, base, sizes, cells[..]);
              && t == MapAll(d0, config.fate, base, sizes[..i + 1], cells[..i + 1]).1
              && device == ReleaseAll(UnmapAll(g, config.fate, base, sizes[..k]).0, config.fate, cells[..]).0
    {
      assert cells[..][..i + 1] == cells[..i + 1];
      MapAllStops(d0, config.fate, base, sizes, cells[..], i + 1);
      var _ := UnmapChunks(base, sizes, i);
      assert cells[..] == cells[..|sizes|];
      var _ := ReleaseCells(cells, |sizes|);
    }

    method CreateAndMapBlock(base: nat, sizes: seq<nat>, cells: array<nat>)
      requires cells.Length == |sizes|
      modifies this`device, this`errorCode, cells
      ensures Outcome(device, errorCode, cells[..]) ==
              CreateAndMap(old(device), config.fate, old(errorCode), base, sizes, old(cells[..]))
    {
      var created := CreateChunks(sizes, cells);
      if !created {
        return;
      }
      ghost var hs := CreateAll(old(device), config.fate, sizes).2;
      assert hs + old(cells[..])[|hs|..] == hs;
      var mapped := MapChunks(base, sizes, cells);
      if !mapped {
        return;
      }
      var (x, u) := DoSetAccess(device, config.fate);
      device := x;
      Check(u);
    }

    method UnmapAndReleaseBlock(base: nat, sizes: seq<nat>, cells: array<nat>)
      modifies this`device, this`errorCode
      ensures (device, errorCode) == UnmapAndRelease(old(device), config.fate, old(errorCode), base, sizes, cells[..])
    {
      var ss := UnmapChunks(base, sizes, |sizes|);
      var ts := ReleaseCells(cells, cells.Length);
      assert sizes[..|sizes|] == sizes && cells[..cells.Length] == cells[..];
      Check(FirstError(ss + ts));
    }

    method MyMalloc(size: nat, hostOk: bool) returns (ptr: nat)
      requires NoWrap(size, config.granularity, config.setting)
      modifies this
      ensures (Value(), ptr) == Malloc(old(Value()), config, size, hostOk)
    {
      var (d1, s1) := DoGranularity(device, config.fate);
      device := d1;
      Check(s1);
      if errorCode != OK {
        return 0;
      }
      var aligned := AlignUp(size, config.granularity);
      var (d2, s2, a) := ReserveRocm(device, config.fate, aligned, config.granularity);
      device := d2;
      Check(s2);
      if errorCode != OK {
        return 0;
      }
      AlignUpExact(BaseChunk(config.setting), config.granularity);
      var sizes := ChunkSizes(aligned, AlignUp(BaseChunk(config.setting), config.granularity));
      if !hostOk {
        return 0;
      }
      var cells := new nat[|sizes|](_ => 0);
      assert cells[..] == seq(|sizes|, _ => 0);
      CreateAndMapBlock(a, sizes, cells);
      if errorCode != OK {
        var (d3, s3) := DoAddressFree(device, config.fate, a, aligned);
        device := d3;
        Check(s3);
        table := table[a := Block(aligned, sizes, cells[..], Gone)];
        return 0;
      }
      table := table[a := Block(aligned, sizes, cells[..], Awake)];
      return a;
    }

    method MyFree(ptr: nat, size: nat)
      requires ptr in table
      modifies this
      ensures Value() == Free(old(Value()), config, ptr, size)
    {
      var b := table[ptr];
      table := table - {ptr};
      var cells := new nat[|b.cells|](i requires 0 <= i < |b.cells| => b.cells[i]);
      assert cells[..] == b.cells;
      UnmapAndReleaseBlock(ptr, b.sizes, cells);
      var (e, s) := DoAddressFree(device, config.fate, ptr, size);
      device := e;
      Check(s);
    }

    method PythonUnmapAndRelease(ptr: nat) returns (raised: bool)
      requires ptr in table
      modifies this
      ensures (Value(), raised) == Sleep(old(Value()), config, ptr)
    {
      var b := table[ptr];
      var cells := new nat[|b.cells|](i requires 0 <= i < |b.cells| => b.cells[i]);
      assert cells[..] == b.cells;
      UnmapAndReleaseBlock(ptr, b.sizes, cells);
      table := table[ptr := b.(phase := Asleep)];
      raised := errorCode != OK;
      errorCode := OK;
    }

    method PythonCreateAndMap(ptr: nat) returns (raised: bool)
      requires ptr in table && |table[ptr].cells| == |table[ptr].sizes|
      modifies this
      ensures (Value(), raised) == Wake(old(Value()), config, ptr)
    {
      var b := table[ptr];
      var cells := new nat[|b.cells|](i requires 0 <= i < |b.cells| => b.cells[i]);
      assert cells[..] == b.cells;
      CreateAndMapBlock(ptr, b.sizes, cells);
      raised := errorCode != OK;
      table := table[ptr := b.(cells := cells[..], phase := if raised then Asleep else Awake)];
      errorCode := OK;
    }
  }
}
