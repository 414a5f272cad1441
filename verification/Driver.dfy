/** The virtual-memory driver as the allocator sees it: reservations, live handles and mapped
    ranges, changed by calls any of which may fail.

    A `Fate` decides, call by call, which calls fail and where reservations land. Calls that the
    driver would refuse outright (releasing a dead handle, mapping over a mapping, ...) are
    counted in `violations`. */
module Driver {
  import opened Sums

  const OK := 0
  const INVALID := 1
  const OUT_OF_MEMORY := 2
  const NOT_SUPPORTED := 801

  datatype Kind = Granularity | Reserve | AddressFree | Create | Release | MapChunk | Unmap | SetAccess

  datatype Fate = Fate(status: (Kind, nat) -> int, place: nat -> nat)

  datatype Chunk = Chunk(size: nat, handle: nat)

  datatype Device = Device(
    reserved: map<nat, nat>,
    live: set<nat>,
    mapped: map<nat, Chunk>,
    calls: nat,
    violations: nat)

  // ----- ranges

  predicate Apart(a: nat, n: nat, b: nat, m: nat) {
    a + n <= b || b + m <= a
  }

  /** [a, a + n) meets no reservation. */
  predicate Unreserved(d: Device, a: nat, n: nat) {
    forall r :: r in d.reserved ==> Apart(a, n, r, d.reserved[r])
  }

  /** [a, a + n) meets no mapping. */
  predicate Unmapped(d: Device, a: nat, n: nat) {
    forall c :: c in d.mapped ==> Apart(a, n, c, d.mapped[c].size)
  }

  predicate Inside(d: Device, a: nat, n: nat) {
    exists r :: r in d.reserved && r <= a && a + n <= r + d.reserved[r]
  }

  // ----- calls

  function Ticked(d: Device): Device {
    d.(calls := d.calls + 1)
  }

  function Refused(d: Device): Device {
    d.(calls := d.calls + 1, violations := d.violations + 1)
  }

  /** A reservation succeeds only at an address that is non-null, aligned and unreserved. */
  function DoReserve(d: Device, f: Fate, size: nat, alignment: nat): (Device, int, nat) {
    var s, a := f.status(Reserve, d.calls), f.place(d.calls);
    if s != OK then (Ticked(d), s, 0)
    else if a > 0 && (alignment == 0 || a % alignment == 0) && Unreserved(d, a, size) then
      (Ticked(d).(reserved := d.reserved[a := size]), OK, a)
    else (Ticked(d), OUT_OF_MEMORY, 0)
  }

  function DoAddressFree(d: Device, f: Fate, a: nat, size: nat): (Device, int) {
    if !(a in d.reserved && d.reserved[a] == size && Unmapped(d, a, size)) then (Refused(d), INVALID)
    else if f.status(AddressFree, d.calls) != OK then (Ticked(d), f.status(AddressFree, d.calls))
    else (Ticked(d).(reserved := d.reserved - {a}), OK)
  }

  /** A new handle is the number of the call that created it. */
  function DoCreate(d: Device, f: Fate, size: nat): (Device, int, nat) {
    if f.status(Create, d.calls) != OK then (Ticked(d), f.status(Create, d.calls), 0)
    else (Ticked(d).(live := d.live + {d.calls}), OK, d.calls)
  }

  function DoRelease(d: Device, f: Fate, h: nat): (Device, int) {
    if h !in d.live then (Refused(d), INVALID)
    else if f.status(Release, d.calls) != OK then (Ticked(d), f.status(Release, d.calls))
    else (Ticked(d).(live := d.live - {h}), OK)
  }

  function DoMap(d: Device, f: Fate, a: nat, size: nat, h: nat): (Device, int) {
    if !(h in d.live && size > 0 && Inside(d, a, size) && Unmapped(d, a, size)) then (Refused(d), INVALID)
    else if f.status(MapChunk, d.calls) != OK then (Ticked(d), f.status(MapChunk, d.calls))
    else (Ticked(d).(mapped := d.mapped[a := Chunk(size, h)]), OK)
  }

  function DoUnmap(d: Device, f: Fate, a: nat, size: nat): (Device, int) {
    if !(a in d.mapped && d.mapped[a].size == size) then (Refused(d), INVALID)
    else if f.status(Unmap, d.calls) != OK then (Ticked(d), f.status(Unmap, d.calls))
    else (Ticked(d).(mapped := d.mapped - {a}), OK)
  }

  function DoSetAccess(d: Device, f: Fate): (Device, int) {
    (Ticked(d), f.status(SetAccess, d.calls))
  }

  function DoGranularity(d: Device, f: Fate): (Device, int) {
    (Ticked(d), f.status(Granularity, d.calls))
  }

  // ----- the loops over chunks

  /** Creates one handle per size, stopping at the first failure. */
  function CreateAll(d: Device, f: Fate, sizes: seq<nat>): (r: (Device, int, seq<nat>))
    ensures |r.2| <= |sizes| && (r.1 == OK <==> |r.2| == |sizes|)
  {
    if sizes == [] then (d, OK, [])
    else
      var n := |sizes| - 1;
      var (e, s, hs) := CreateAll(d, f, sizes[..n]);
      if s != OK then (e, s, hs)
      else
        var (e', s', h) := DoCreate(e, f, sizes[n]);
        if s' != OK then (e', s', hs) else (e', OK, hs + [h])
  }

  /** Maps chunk after chunk from `base` on, stopping at the first failure; counts the mapped ones. */
  function MapAll(d: Device, f: Fate, base: nat, sizes: seq<nat>, hs: seq<nat>): (r: (Device, int, nat))
    requires |hs| == |sizes|
    ensures r.2 <= |sizes| && (r.1 == OK <==> r.2 == |sizes|)
  {
    if sizes == [] then (d, OK, 0)
    else
      var n := |sizes| - 1;
      var (e, s, k) := MapAll(d, f, base, sizes[..n], hs[..n]);
      if s != OK then (e, s, k)
      else
        var (e', s') := DoMap(e, f, base + Sum(sizes[..n]), sizes[n], hs[n]);
        if s' != OK then (e', s', n) else (e', OK, n + 1)
  }

  /** Unmaps every chunk, whatever the earlier calls returned. */
  function UnmapAll(d: Device, f: Fate, base: nat, sizes: seq<nat>): (r: (Device, seq<int>))
    ensures |r.1| == |sizes|
  {
    if sizes == [] then (d, [])
    else
      var n := |sizes| - 1;
      var (e, ss) := UnmapAll(d, f, base, sizes[..n]);
      var (e', s) := DoUnmap(e, f, base + Sum(sizes[..n]), sizes[n]);
      (e', ss + [s])
  }

  /** Releases every handle, whatever the earlier calls returned. */
  function ReleaseAll(d: Device, f: Fate, hs: seq<nat>): (r: (Device, seq<int>))
    ensures |r.1| == |hs|
  {
    if hs == [] then (d, [])
    else
      var n := |hs| - 1;
      var (e, ss) := ReleaseAll(d, f, hs[..n]);
      var (e', s) := DoRelease(e, f, hs[n]);
      (e', ss + [s])
  }

  function FirstError(ss: seq<int>): int {
    if ss == [] then OK else if ss[0] != OK then ss[0] else FirstError(ss[1..])
  }

  // ----- what the loops do to the device

  ghost predicate Distinct(hs: seq<nat>) {
    forall i, j :: 0 <= i < j < |hs| ==> hs[i] != hs[j]
  }

  ghost function Members(hs: seq<nat>): set<nat> {
    set i | 0 <= i < |hs| :: hs[i]
  }

  /** The mappings of a block. */
  ghost function Layout(base: nat, sizes: seq<nat>, hs: seq<nat>): map<nat, Chunk>
    requires |sizes| == |hs|
  {
    if sizes == [] then map[]
    else
      var n := |sizes| - 1;
      Layout(base, sizes[..n], hs[..n])[base + Sum(sizes[..n]) := Chunk(sizes[n], hs[n])]
  }

  /** Creation adds exactly the returned handles, all new and all different. */
  lemma {:induction false} CreateAllAdds(d: Device, f: Fate, sizes: seq<nat>)
    requires forall h :: h in d.live ==> h < d.calls
    ensures var (e, s, hs) := CreateAll(d, f, sizes);
            && Distinct(hs) && (forall i :: 0 <= i < |hs| ==> d.calls <= hs[i] < e.calls)
            && e == d.(live := d.live + Members(hs), calls := e.calls) && d.calls <= e.calls
  {
    if sizes != [] {
      var n := |sizes| - 1;
      CreateAllAdds(d, f, sizes[..n]);
      var (e, s, hs) := CreateAll(d, f, sizes[..n]);
      if s == OK {
        var (e', s', h) := DoCreate(e, f, sizes[n]);
        if s' == OK {
          MembersSnoc(hs, h);
        }
      }
    } else {
      assert d.live + Members([]) == d.live;
    }
  }

  lemma MembersSnoc(hs: seq<nat>, h: nat)
    ensures Members(hs + [h]) == Members(hs) + {h}
  {
    assert forall i :: 0 <= i < |hs| ==> (hs + [h])[i] == hs[i];
    assert (hs + [h])[|hs|] == h;
  }

  lemma {:induction false} LayoutRange(base: nat, sizes: seq<nat>, hs: seq<nat>)
    requires |sizes| == |hs| && Positive(sizes)
    ensures forall a :: a in Layout(base, sizes, hs) ==>
              && base <= a && Layout(base, sizes, hs)[a].size > 0
              && a + Layout(base, sizes, hs)[a].size <= base + Sum(sizes)
    decreases |sizes|
  {
    if sizes != [] {
      LayoutRange(base, sizes[..|sizes| - 1], hs[..|sizes| - 1]);
    }
  }

  /** A block whose reservation holds no mapping can be mapped chunk by chunk. */
  ghost predicate Mappable(d: Device, base: nat, sizes: seq<nat>, hs: seq<nat>) {
    && |sizes| == |hs| && Positive(sizes)
    && base in d.reserved && Sum(sizes) <= d.reserved[base]
    && Unmapped(d, base, d.reserved[base])
    && (forall i :: 0 <= i < |hs| ==> hs[i] in d.live)
  }

  /** A result of mapping: the first `k` chunks were added, and nothing else was changed. */
  ghost predicate Adds(d: Device, base: nat, sizes: seq<nat>, hs: seq<nat>, r: (Device, int, nat))
    requires |sizes| == |hs|
  {
    && r.2 <= |sizes| && d.calls <= r.0.calls
    && r.0 == d.(mapped := d.mapped + Layout(base, sizes[..r.2], hs[..r.2]), calls := r.0.calls)
  }

  /** Mapping adds exactly the chunks before the first failure, and the driver refuses none of the
      calls. */
  lemma {:induction false} MapAllAdds(d: Device, f: Fate, base: nat, sizes: seq<nat>, hs: seq<nat>)
    requires Mappable(d, base, sizes, hs)
    ensures Adds(d, base, sizes, hs, MapAll(d, f, base, sizes, hs))
    decreases |sizes|
  {
    if sizes == [] {
      assert d.mapped + map[] == d.mapped;
    } else {
      var n := |sizes| - 1;
      MappablePrefix(d, base, sizes, hs);
      MapAllAdds(d, f, base, sizes[..n], hs[..n]);
      var (e, s, k) := MapAll(d, f, base, sizes[..n], hs[..n]);
      AddsLonger(d, base, sizes, hs, (e, s, k));
      if s == OK {
        MapOneLegal(d, e, base, sizes, hs);
        var r := DoMap(e, f, base + Sum(sizes[..n]), sizes[n], hs[n]);
        MapLegal(e, f, base + Sum(sizes[..n]), sizes[n], hs[n]);
        AddsNext(d, base, sizes, hs, e, r);
      }
    }
  }

  lemma MappablePrefix(d: Device, base: nat, sizes: seq<nat>, hs: seq<nat>)
    requires Mappable(d, base, sizes, hs) && sizes != []
    ensures Mappable(d, base, sizes[..|sizes| - 1], hs[..|sizes| - 1])
  {
  }

  lemma AddsLonger(d: Device, base: nat, sizes: seq<nat>, hs: seq<nat>, r: (Device, int, nat))
    requires |sizes| == |hs| > 0 && Adds(d, base, sizes[..|sizes| - 1], hs[..|sizes| - 1], r)
    ensures Adds(d, base, sizes, hs, r)
    ensures r.2 == |sizes| - 1 ==>
              r.0 == d.(mapped := d.mapped + Layout(base, sizes[..|sizes| - 1], hs[..|sizes| - 1]), calls := r.0.calls)
  {
    var n := |sizes| - 1;
    assert sizes[..n][..r.2] == sizes[..r.2] && hs[..n][..r.2] == hs[..r.2];
  }

  /** A mapping either adds itself or fails and changes nothing. */
  predicate MapsOne(d: Device, a: nat, c: Chunk, r: (Device, int)) {
    r.0 == if r.1 == OK then d.(mapped := d.mapped[a := c], calls := d.calls + 1) else d.(calls := d.calls + 1)
  }

  lemma MapLegal(d: Device, f: Fate, a: nat, size: nat, h: nat)
    requires h in d.live && size > 0 && Inside(d, a, size) && Unmapped(d, a, size)
    ensures MapsOne(d, a, Chunk(size, h), DoMap(d, f, a, size, h))
  {
  }

  lemma AddsNext(d: Device, base: nat, sizes: seq<nat>, hs: seq<nat>, e: Device, r: (Device, int))
    requires |sizes| == |hs| > 0
    requires var n := |sizes| - 1;
             Adds(d, base, sizes, hs, (e, OK, n)) && MapsOne(e, base + Sum(sizes[..n]), Chunk(sizes[n], hs[n]), r)
    ensures Adds(d, base, sizes, hs, (r.0, r.1, if r.1 == OK then |sizes| else |sizes| - 1))
  {
    if r.1 == OK {
      LayoutNext(d.mapped, base, sizes, hs);
      assert sizes[..|sizes|] == sizes && hs[..|sizes|] == hs;
    }
  }

  lemma LayoutNext(m: map<nat, Chunk>, base: nat, sizes: seq<nat>, hs: seq<nat>)
    requires |sizes| == |hs| > 0
    ensures var n := |sizes| - 1;
            (m + Layout(base, sizes[..n], hs[..n]))[base + Sum(sizes[..n]) := Chunk(sizes[n], hs[n])] ==
            m + Layout(base, sizes, hs)
  {
  }

  lemma MapOneLegal(d: Device, e: Device, base: nat, sizes: seq<nat>, hs: seq<nat>)
    requires Mappable(d, base, sizes, hs) && sizes != []
    requires var n := |sizes| - 1;
             e == d.(mapped := d.mapped + Layout(base, sizes[..n], hs[..n]), calls := e.calls)
    ensures var n := |sizes| - 1;
            && hs[n] in e.live && sizes[n] > 0
            && Inside(e, base + Sum(sizes[..n]), sizes[n]) && Unmapped(e, base + Sum(sizes[..n]), sizes[n])
  {
    var n := |sizes| - 1;
    LayoutRange(base, sizes[..n], hs[..n]);
    assert base in e.reserved && base + Sum(sizes[..n]) + sizes[n] <= base + e.reserved[base];
  }

  /** The chunks whose unmapping succeeded. */
  ghost function UnmappedOf(base: nat, sizes: seq<nat>, ss: seq<int>): set<nat>
    requires |sizes| == |ss|
  {
    if sizes == [] then {}
    else
      var n := |sizes| - 1;
      UnmappedOf(base, sizes[..n], ss[..n]) + if ss[n] == OK then {base + Sum(sizes[..n])} else {}
  }

  ghost predicate SubMap(m: map<nat, Chunk>, w: map<nat, Chunk>) {
    forall a :: a in m ==> a in w && w[a] == m[a]
  }

  lemma {:induction false} UnmappedRange(base: nat, sizes: seq<nat>, ss: seq<int>)
    requires |sizes| == |ss| && Positive(sizes)
    ensures forall a :: a in UnmappedOf(base, sizes, ss) ==> base <= a < base + Sum(sizes)
    decreases |sizes|
  {
    if sizes != [] {
      UnmappedRange(base, sizes[..|sizes| - 1], ss[..|sizes| - 1]);
    }
  }

  /** Best-effort unmapping: each chunk is unmapped at the offset it was mapped at, a failure skips
      only itself, and the driver refuses none of the calls. */
  lemma {:induction false} UnmapAllRemoves(d: Device, f: Fate, base: nat, sizes: seq<nat>, hs: seq<nat>)
    requires |sizes| == |hs| && Positive(sizes) && SubMap(Layout(base, sizes, hs), d.mapped)
    ensures var (e, ss) := UnmapAll(d, f, base, sizes);
            && e == d.(mapped := d.mapped - UnmappedOf(base, sizes, ss), calls := e.calls) && d.calls <= e.calls
    decreases |sizes|
  {
    if sizes != [] {
      var n := |sizes| - 1;
      var a := base + Sum(sizes[..n]);
      LayoutGrows(base, sizes, hs);
      UnmapAllRemoves(d, f, base, sizes[..n], hs[..n]);
      var (e, ss) := UnmapAll(d, f, base, sizes[..n]);
      UnmappedRange(base, sizes[..n], ss);
      assert a in e.mapped && e.mapped[a] == Chunk(sizes[n], hs[n]);
      var (e', s) := DoUnmap(e, f, a, sizes[n]);
      assert (ss + [s])[..n] == ss;
      assert e'.mapped == d.mapped - UnmappedOf(base, sizes, ss + [s]);
    } else {
      assert d.mapped - {} == d.mapped;
    }
  }

  lemma LayoutGrows(base: nat, sizes: seq<nat>, hs: seq<nat>)
    requires |sizes| == |hs| > 0 && Positive(sizes)
    ensures var n := |sizes| - 1;
            && SubMap(Layout(base, sizes[..n], hs[..n]), Layout(base, sizes, hs))
            && base + Sum(sizes[..n]) in Layout(base, sizes, hs)
            && Layout(base, sizes, hs)[base + Sum(sizes[..n])] == Chunk(sizes[n], hs[n])
  {
    LayoutRange(base, sizes[..|sizes| - 1], hs[..|sizes| - 1]);
  }

  /** The handles whose release succeeded. */
  ghost function ReleasedOf(hs: seq<nat>, ss: seq<int>): set<nat>
    requires |hs| == |ss|
  {
    set i | 0 <= i < |hs| && ss[i] == OK :: hs[i]
  }

  /** Best-effort release: each handle is released once, a failure skips only itself, and the
      driver refuses none of the calls. */
  lemma {:induction false} ReleaseAllRemoves(d: Device, f: Fate, hs: seq<nat>)
    requires Distinct(hs) && Members(hs) <= d.live
    ensures var (e, ss) := ReleaseAll(d, f, hs);
            && e == d.(live := d.live - ReleasedOf(hs, ss), calls := e.calls) && d.calls <= e.calls
    decreases |hs|
  {
    if hs != [] {
      var n := |hs| - 1;
      assert Members(hs[..n]) <= Members(hs);
      ReleaseAllRemoves(d, f, hs[..n]);
      var (e, ss) := ReleaseAll(d, f, hs[..n]);
      assert hs[n] in Members(hs) && hs[n] !in ReleasedOf(hs[..n], ss);
      var (e', s) := DoRelease(e, f, hs[n]);
      ReleasedSnoc(hs, ss, s);
    } else {
      assert d.live - ReleasedOf(hs, []) == d.live;
    }
  }

  lemma ReleasedSnoc(hs: seq<nat>, ss: seq<int>, s: int)
    requires |hs| == |ss| + 1
    ensures ReleasedOf(hs, ss + [s]) == ReleasedOf(hs[..|ss|], ss) + if s == OK then {hs[|ss|]} else {}
  {
    var n := |ss|;
    forall h | h in ReleasedOf(hs[..n], ss) + (if s == OK then {hs[n]} else {}) ensures h in ReleasedOf(hs, ss + [s]) {
      if h in ReleasedOf(hs[..n], ss) {
        var i :| 0 <= i < n && ss[i] == OK && hs[..n][i] == h;
        assert (ss + [s])[i] == OK && hs[i] == h;
      } else {
        assert (ss + [s])[n] == OK && hs[n] == h;
      }
    }
    forall h | h in ReleasedOf(hs, ss + [s]) ensures h in ReleasedOf(hs[..n], ss) + (if s == OK then {hs[n]} else {}) {
      var i :| 0 <= i < n + 1 && (ss + [s])[i] == OK && hs[i] == h;
      if i < n {
        assert ss[i] == OK && hs[..n][i] == h;
      }
    }
  }

  lemma {:induction false} FirstErrorIs(ss: seq<int>)
    ensures FirstError(ss) == OK <==> (forall i :: 0 <= i < |ss| ==> ss[i] == OK)
    ensures FirstError(ss) != OK ==>
              exists i :: 0 <= i < |ss| && ss[i] == FirstError(ss) && forall j :: 0 <= j < i ==> ss[j] == OK
    decreases |ss|
  {
    if ss != [] {
      FirstErrorIs(ss[1..]);
      if ss[0] == OK && FirstError(ss) != OK {
        var i :| 0 <= i < |ss[1..]| && ss[1..][i] == FirstError(ss) && forall j :: 0 <= j < i ==> ss[1..][j] == OK;
        forall j | 0 <= j < i + 1 ensures ss[j] == OK {
          assert j > 0 ==> ss[j] == ss[1..][j - 1];
        }
        assert ss[i + 1] == FirstError(ss);
      }
      if forall i :: 0 <= i < |ss| ==> ss[i] == OK {
        assert forall i :: 0 <= i < |ss[1..]| ==> ss[1..][i] == ss[i + 1];
      } else if ss[0] == OK {
        var i :| 0 <= i < |ss| && ss[i] != OK;
        assert ss[1..][i - 1] == ss[i];
      }
    }
  }

  // ----- when nothing fails

  lemma FirstErrorAppend(ss: seq<int>, ts: seq<int>)
    ensures FirstError(ss + ts) == OK <==> FirstError(ss) == OK && FirstError(ts) == OK
  {
    FirstErrorIs(ss);
    FirstErrorIs(ts);
    FirstErrorIs(ss + ts);
    if FirstError(ss + ts) == OK {
      forall i | 0 <= i < |ss| ensures ss[i] == OK {
        assert (ss + ts)[i] == OK;
      }
      forall i | 0 <= i < |ts| ensures ts[i] == OK {
        assert (ss + ts)[|ss| + i] == OK;
      }
    }
  }

  lemma {:induction false} UnmappedAll(base: nat, sizes: seq<nat>, hs: seq<nat>, ss: seq<int>)
    requires |sizes| == |hs| == |ss| && forall i :: 0 <= i < |ss| ==> ss[i] == OK
    ensures UnmappedOf(base, sizes, ss) == Layout(base, sizes, hs).Keys
    decreases |sizes|
  {
    if sizes != [] {
      UnmappedAll(base, sizes[..|sizes| - 1], hs[..|sizes| - 1], ss[..|sizes| - 1]);
    }
  }

  /** If no unmapping fails, the whole block is unmapped. */
  lemma UnmapsAll(d: Device, f: Fate, base: nat, sizes: seq<nat>, hs: seq<nat>)
    requires |sizes| == |hs| && Positive(sizes) && SubMap(Layout(base, sizes, hs), d.mapped)
    requires FirstError(UnmapAll(d, f, base, sizes).1) == OK
    ensures var e := UnmapAll(d, f, base, sizes).0;
            e == d.(mapped := d.mapped - Layout(base, sizes, hs).Keys, calls := e.calls) && d.calls <= e.calls
  {
    UnmapAllRemoves(d, f, base, sizes, hs);
    var ss := UnmapAll(d, f, base, sizes).1;
    FirstErrorIs(ss);
    UnmappedAll(base, sizes, hs, ss);
  }

  /** If no release fails, all handles are released. */
  lemma ReleasesAll(d: Device, f: Fate, hs: seq<nat>)
    requires Distinct(hs) && Members(hs) <= d.live && FirstError(ReleaseAll(d, f, hs).1) == OK
    ensures var e := ReleaseAll(d, f, hs).0;
            e == d.(live := d.live - Members(hs), calls := e.calls) && d.calls <= e.calls
  {
    ReleaseAllRemoves(d, f, hs);
    var ss := ReleaseAll(d, f, hs).1;
    FirstErrorIs(ss);
    assert ReleasedOf(hs, ss) == Members(hs);
  }
}
