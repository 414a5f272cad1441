/** Creating and mapping a block chunk by chunk, with rollback, and tearing it down again. */
module Mapping {
  import opened Sums
  import opened Driver

  /** Device, error code and handle cells after `create_and_map`. */
  datatype Outcome = Outcome(device: Device, err: int, cells: seq<nat>)

  /** `create_and_map`. `err` is the sticky error code on entry; `cells` are the handle cells. */
  function CreateAndMap(d: Device, f: Fate, err: int, base: nat, sizes: seq<nat>, cells: seq<nat>): (o: Outcome)
    requires |cells| == |sizes|
    ensures |o.cells| == |sizes|
  {
    if err != OK then Abandon(d, f, err, sizes, cells)
    else
      var (e, s, hs) := CreateAll(d, f, sizes);
      if s != OK then Outcome(ReleaseAll(e, f, hs).0, s, hs + cells[|hs|..])
      else
        var (g, t, k) := MapAll(e, f, base, sizes, hs);
        if t != OK then
          Outcome(ReleaseAll(UnmapAll(g, f, base, sizes[..k]).0, f, hs).0, t, hs)
        else
          var (x, u) := DoSetAccess(g, f);
          Outcome(x, u, hs)
  }

  /** With an error code left over from an earlier call, the first chunk is created and then given
      up on, because the check after the call looks at the old error. */
  function Abandon(d: Device, f: Fate, err: int, sizes: seq<nat>, cells: seq<nat>): (o: Outcome)
    requires |cells| == |sizes| && err != OK
    ensures |o.cells| == |sizes| && o.err != OK
  {
    if sizes == [] then
      var (x, u) := DoSetAccess(d, f);
      Outcome(x, if u != OK then u else err, cells)
    else
      var (e, s, h) := DoCreate(d, f, sizes[0]);
      if s != OK then Outcome(e, s, cells) else Outcome(e, err, cells[0 := h])
  }

  /** `unmap_and_release`: every chunk, then every handle; the first failure is reported. */
  function UnmapAndRelease(d: Device, f: Fate, err: int, base: nat, sizes: seq<nat>, cells: seq<nat>): (Device, int) {
    var (e, ss) := UnmapAll(d, f, base, sizes);
    var (g, ts) := ReleaseAll(e, f, cells);
    var first := FirstError(ss + ts);
    (g, if first != OK then first else err)
  }

  // ----- the loops, as the code runs them

  lemma {:induction false} CreateAllStops(d: Device, f: Fate, sizes: seq<nat>, i: nat)
    requires i <= |sizes| && CreateAll(d, f, sizes[..i]).1 != OK
    ensures CreateAll(d, f, sizes) == CreateAll(d, f, sizes[..i])
    decreases |sizes|
  {
    if i < |sizes| {
      var n := |sizes| - 1;
      assert sizes[..n][..i] == sizes[..i];
      CreateAllStops(d, f, sizes[..n], i);
    } else {
      assert sizes[..i] == sizes;
    }
  }

  lemma {:induction false} MapAllStops(d: Device, f: Fate, base: nat, sizes: seq<nat>, hs: seq<nat>, i: nat)
    requires |hs| == |sizes| && i <= |sizes| && MapAll(d, f, base, sizes[..i], hs[..i]).1 != OK
    ensures MapAll(d, f, base, sizes, hs) == MapAll(d, f, base, sizes[..i], hs[..i])
    decreases |sizes|
  {
    if i < |sizes| {
      var n := |sizes| - 1;
      assert sizes[..n][..i] == sizes[..i] && hs[..n][..i] == hs[..i];
      MapAllStops(d, f, base, sizes[..n], hs[..n], i);
    } else {
      assert sizes[..i] == sizes && hs[..i] == hs;
    }
  }

  lemma MapAllNext(d: Device, f: Fate, base: nat, sizes: seq<nat>, hs: seq<nat>, i: nat, e: Device)
    requires |hs| == |sizes| && i < |sizes| && MapAll(d, f, base, sizes[..i], hs[..i]) == (e, OK, i)
    ensures Sum(sizes[..i + 1]) == Sum(sizes[..i]) + sizes[i]
    ensures var (g, s) := DoMap(e, f, base + Sum(sizes[..i]), sizes[i], hs[i]);
            MapAll(d, f, base, sizes[..i + 1], hs[..i + 1]) == if s != OK then (g, s, i) else (g, OK, i + 1)
  {
    assert sizes[..i + 1][..i] == sizes[..i] && hs[..i + 1][..i] == hs[..i];
  }

  // ----- failure atomicity

  /** A block of a reservation nothing is mapped in. */
  ghost predicate Vacant(d: Device, base: nat, sizes: seq<nat>) {
    && Positive(sizes) && base in d.reserved && Sum(sizes) == d.reserved[base]
    && Unmapped(d, base, d.reserved[base]) && Solid(d)
    && (forall h :: h in d.live ==> h < d.calls)
  }

  /** No mapping is empty. */
  ghost predicate Solid(d: Device) {
    forall c :: c in d.mapped ==> d.mapped[c].size > 0
  }

  /** The statuses of the unmap and release calls a failing `create_and_map` makes to roll back. */
  function Rollback(d: Device, f: Fate, base: nat, sizes: seq<nat>): seq<int> {
    var (e, s, hs) := CreateAll(d, f, sizes);
    if s != OK then ReleaseAll(e, f, hs).1
    else
      var (g, t, k) := MapAll(e, f, base, sizes, hs);
      var (x, ss) := UnmapAll(g, f, base, sizes[..k]);
      ss + ReleaseAll(x, f, hs).1
  }

  /** Creation or mapping fails somewhere. */
  predicate Fails(d: Device, f: Fate, base: nat, sizes: seq<nat>) {
    var (e, s, hs) := CreateAll(d, f, sizes);
    s != OK || MapAll(e, f, base, sizes, hs).1 != OK
  }

  lemma MappableAfterCreate(d: Device, f: Fate, base: nat, sizes: seq<nat>)
    requires Vacant(d, base, sizes) && CreateAll(d, f, sizes).1 == OK
    ensures var (e, s, hs) := CreateAll(d, f, sizes);
            && Mappable(e, base, sizes, hs) && Distinct(hs) && Members(hs) <= e.live && Members(hs) !! d.live
            && e == d.(live := d.live + Members(hs), calls := e.calls)
            && (forall h :: h in e.live ==> h < e.calls)
  {
    CreateAllAdds(d, f, sizes);
  }

  /** Creation failed: what stays behind is exactly the handles whose release failed too. */
  lemma CreateResidue(d: Device, f: Fate, base: nat, sizes: seq<nat>, cells: seq<nat>)
    requires Vacant(d, base, sizes) && |cells| == |sizes| && CreateAll(d, f, sizes).1 != OK
    ensures var (e, s, hs) := CreateAll(d, f, sizes);
            var o := CreateAndMap(d, f, OK, base, sizes, cells);
            && o.err == s != OK
            && o.device == d.(live := d.live + (Members(hs) - ReleasedOf(hs, Rollback(d, f, base, sizes))),
                              calls := o.device.calls)
  {
    CreateAllAdds(d, f, sizes);
    var (e, s, hs) := CreateAll(d, f, sizes);
    ReleaseAllRemoves(e, f, hs);
    var (x, ss) := ReleaseAll(e, f, hs);
    LiveMinusReleased(d.live, hs, ss);
  }

  lemma {:induction false} LayoutPrefix(base: nat, sizes: seq<nat>, hs: seq<nat>, k: nat)
    requires |sizes| == |hs| && Positive(sizes) && k <= |sizes|
    ensures SubMap(Layout(base, sizes[..k], hs[..k]), Layout(base, sizes, hs))
    decreases |sizes|
  {
    if k < |sizes| {
      var n := |sizes| - 1;
      LayoutPrefix(base, sizes[..n], hs[..n], k);
      assert sizes[..n][..k] == sizes[..k] && hs[..n][..k] == hs[..k];
      LayoutGrows(base, sizes, hs);
    } else {
      assert sizes[..k] == sizes && hs[..k] == hs;
    }
  }

  lemma LayoutFresh(d: Device, base: nat, sizes: seq<nat>, hs: seq<nat>, k: nat)
    requires |sizes| == |hs| && Positive(sizes) && k <= |sizes| && base in d.reserved && Sum(sizes) <= d.reserved[base]
    requires Unmapped(d, base, d.reserved[base]) && Solid(d)
    ensures Layout(base, sizes[..k], hs[..k]).Keys !! d.mapped.Keys
  {
    LayoutPrefix(base, sizes, hs, k);
    LayoutRange(base, sizes, hs);
  }

  /** Mapping failed: what stays behind is exactly the chunks whose unmapping failed and the
      handles whose release failed. */
  lemma MapResidue(d: Device, f: Fate, base: nat, sizes: seq<nat>, cells: seq<nat>)
    requires Vacant(d, base, sizes) && |cells| == |sizes| && CreateAll(d, f, sizes).1 == OK
    requires MapAll(CreateAll(d, f, sizes).0, f, base, sizes, CreateAll(d, f, sizes).2).1 != OK
    ensures var (e, s, hs) := CreateAll(d, f, sizes);
            var (g, t, k) := MapAll(e, f, base, sizes, hs);
            var (x, ss) := UnmapAll(g, f, base, sizes[..k]);
            var ts := ReleaseAll(x, f, hs).1;
            var o := CreateAndMap(d, f, OK, base, sizes, cells);
            && o.err == t != OK && Rollback(d, f, base, sizes) == ss + ts
            && o.device == d.(live := d.live + (Members(hs) - ReleasedOf(hs, ts)),
                              mapped := d.mapped +
                                        (Layout(base, sizes[..k], hs[..k]) - UnmappedOf(base, sizes[..k], ss)),
                              calls := o.device.calls)
  {
    MappableAfterCreate(d, f, base, sizes);
    var (e, s, hs) := CreateAll(d, f, sizes);
    MapAllAdds(e, f, base, sizes, hs);
    var (g, t, k) := MapAll(e, f, base, sizes, hs);
    UnmapAllRemoves(g, f, base, sizes[..k], hs[..k]);
    var (x, ss) := UnmapAll(g, f, base, sizes[..k]);
    ReleaseAllRemoves(x, f, hs);
    var (y, ts) := ReleaseAll(x, f, hs);
    LayoutFresh(d, base, sizes, hs, k);
    UnmappedInLayout(base, sizes[..k], hs[..k], ss);
    MinusNew(d.mapped, Layout(base, sizes[..k], hs[..k]), UnmappedOf(base, sizes[..k], ss));
    LiveMinusReleased(d.live, hs, ts);
  }

  lemma MinusNew(m: map<nat, Chunk>, l: map<nat, Chunk>, u: set<nat>)
    requires l.Keys !! m.Keys && u <= l.Keys
    ensures (m + l) - u == m + (l - u)
  {
  }

  lemma LiveMinusReleased(live: set<nat>, hs: seq<nat>, ts: seq<int>)
    requires |hs| == |ts| && Members(hs) !! live
    ensures (live + Members(hs)) - ReleasedOf(hs, ts) == live + (Members(hs) - ReleasedOf(hs, ts))
  {
    assert ReleasedOf(hs, ts) <= Members(hs);
  }

  lemma {:induction false} UnmappedInLayout(base: nat, sizes: seq<nat>, hs: seq<nat>, ss: seq<int>)
    requires |sizes| == |hs| == |ss|
    ensures UnmappedOf(base, sizes, ss) <= Layout(base, sizes, hs).Keys
    decreases |sizes|
  {
    if sizes != [] {
      UnmappedInLayout(base, sizes[..|sizes| - 1], hs[..|sizes| - 1], ss[..|sizes| - 1]);
    }
  }

  // ----- when no rollback, access or teardown call fails

  /** The statuses that decide whether `create_and_map` leaves something half done: of the rollback if
      it fails, of setting the access if it does not. */
  function Aftermath(d: Device, f: Fate, base: nat, sizes: seq<nat>): seq<int> {
    var (e, s, hs) := CreateAll(d, f, sizes);
    if Fails(d, f, base, sizes) then Rollback(d, f, base, sizes)
    else [DoSetAccess(MapAll(e, f, base, sizes, hs).0, f).1]
  }

  /** The statuses of tearing a block down: unmaps, then releases. */
  function Teardown(d: Device, f: Fate, base: nat, sizes: seq<nat>, cells: seq<nat>): seq<int> {
    var (e, ss) := UnmapAll(d, f, base, sizes);
    ss + ReleaseAll(e, f, cells).1
  }

  /** Either nothing changed, or every chunk of the block is mapped to a new handle of its own. */
  ghost predicate AllOrNone(d: Device, base: nat, sizes: seq<nat>, o: Outcome) {
    && d.calls <= o.device.calls && |o.cells| == |sizes|
    && (o.err != OK ==> o.device == d.(calls := o.device.calls))
    && (o.err == OK ==>
          && Distinct(o.cells) && Members(o.cells) !! d.live
          && (forall i :: 0 <= i < |o.cells| ==> o.cells[i] < o.device.calls)
          && o.device == d.(live := d.live + Members(o.cells),
                            mapped := d.mapped + Layout(base, sizes, o.cells), calls := o.device.calls))
  }

  /** If no rollback call fails and the access can be set, `create_and_map` is all or nothing. */
  lemma AllOrNothing(d: Device, f: Fate, base: nat, sizes: seq<nat>, cells: seq<nat>)
    requires Vacant(d, base, sizes) && |cells| == |sizes| && FirstError(Aftermath(d, f, base, sizes)) == OK
    ensures AllOrNone(d, base, sizes, CreateAndMap(d, f, OK, base, sizes, cells))
    ensures CreateAndMap(d, f, OK, base, sizes, cells).err == OK <==> !Fails(d, f, base, sizes)
  {
    if CreateAll(d, f, sizes).1 != OK {
      NothingCreated(d, f, base, sizes, cells);
    } else {
      MappableAfterCreate(d, f, base, sizes);
      var (e, s, hs) := CreateAll(d, f, sizes);
      CreateAllAdds(d, f, sizes);
      MapAllAdds(e, f, base, sizes, hs);
      if MapAll(e, f, base, sizes, hs).1 != OK {
        NothingMapped(d, f, base, sizes, e, hs);
      } else {
        assert sizes[..|sizes|] == sizes && hs[..|sizes|] == hs;
      }
    }
  }

  lemma NothingCreated(d: Device, f: Fate, base: nat, sizes: seq<nat>, cells: seq<nat>)
    requires Vacant(d, base, sizes) && |cells| == |sizes| && CreateAll(d, f, sizes).1 != OK
    requires FirstError(Rollback(d, f, base, sizes)) == OK
    ensures AllOrNone(d, base, sizes, CreateAndMap(d, f, OK, base, sizes, cells))
  {
    CreateAllAdds(d, f, sizes);
    var (e, s, hs) := CreateAll(d, f, sizes);
    ReleasesAll(e, f, hs);
    assert e.live - Members(hs) == d.live;
  }

  /** Unmapping what was mapped and releasing what was created undoes both. */
  lemma NothingMapped(d: Device, f: Fate, base: nat, sizes: seq<nat>, e: Device, hs: seq<nat>)
    requires Vacant(d, base, sizes) && |hs| == |sizes| && Distinct(hs) && Members(hs) !! d.live
    requires e == d.(live := d.live + Members(hs), calls := e.calls) && d.calls <= e.calls
    requires Adds(e, base, sizes, hs, MapAll(e, f, base, sizes, hs))
    requires var (g, t, k) := MapAll(e, f, base, sizes, hs);
             FirstError(Teardown(g, f, base, sizes[..k], hs)) == OK
    ensures var (g, t, k) := MapAll(e, f, base, sizes, hs);
            var x := ReleaseAll(UnmapAll(g, f, base, sizes[..k]).0, f, hs).0;
            x == d.(calls := x.calls) && d.calls <= x.calls
  {
    var (g, t, k) := MapAll(e, f, base, sizes, hs);
    LayoutFresh(d, base, sizes, hs, k);
    var (x, ss) := UnmapAll(g, f, base, sizes[..k]);
    FirstErrorAppend(ss, ReleaseAll(x, f, hs).1);
    UnmapsAll(g, f, base, sizes[..k], hs[..k]);
    assert x.mapped == d.mapped;
    ReleasesAll(x, f, hs);
    assert x.live - Members(hs) == d.live;
  }

  /** If no call fails, tearing down a mapped block removes exactly that block. */
  lemma TeardownRemoves(d: Device, f: Fate, err: int, base: nat, sizes: seq<nat>, cells: seq<nat>)
    requires |sizes| == |cells| && Positive(sizes)
    requires SubMap(Layout(base, sizes, cells), d.mapped) && Distinct(cells) && Members(cells) <= d.live
    requires FirstError(Teardown(d, f, base, sizes, cells)) == OK
    ensures var (g, err') := UnmapAndRelease(d, f, err, base, sizes, cells);
            && err' == err && d.calls <= g.calls
            && g == d.(live := d.live - Members(cells), mapped := d.mapped - Layout(base, sizes, cells).Keys,
                       calls := g.calls)
  {
    var (e, ss) := UnmapAll(d, f, base, sizes);
    FirstErrorAppend(ss, ReleaseAll(e, f, cells).1);
    UnmapsAll(d, f, base, sizes, cells);
    ReleasesAll(e, f, cells);
  }

  // ----- teardown and rollback under any driver

  /** Best-effort teardown: whatever fails, the rest is still done, the driver refuses no call, and
      the reported error is the first failure, unmaps before releases. */
  lemma TeardownIsBestEffort(d: Device, f: Fate, err: int, base: nat, sizes: seq<nat>, cells: seq<nat>)
    requires |sizes| == |cells| && Positive(sizes)
    requires SubMap(Layout(base, sizes, cells), d.mapped) && Distinct(cells) && Members(cells) <= d.live
    ensures var (e, ss) := UnmapAll(d, f, base, sizes);
            var ts := ReleaseAll(e, f, cells).1;
            var (g, err') := UnmapAndRelease(d, f, err, base, sizes, cells);
            && g == d.(live := d.live - ReleasedOf(cells, ts), mapped := d.mapped - UnmappedOf(base, sizes, ss),
                       calls := g.calls)
            && err' == (if FirstError(ss + ts) != OK then FirstError(ss + ts) else err)
  {
    UnmapAllRemoves(d, f, base, sizes, cells);
    var (e, ss) := UnmapAll(d, f, base, sizes);
    ReleaseAllRemoves(e, f, cells);
  }

  lemma NotReleased(hs: seq<nat>, ss: seq<int>, i: nat)
    requires Distinct(hs) && |hs| == |ss| && i < |hs| && ss[i] != OK
    ensures hs[i] in Members(hs) - ReleasedOf(hs, ss)
  {
  }

  lemma {:induction false} NotUnmapped(base: nat, sizes: seq<nat>, hs: seq<nat>, ss: seq<int>, i: nat)
    requires |sizes| == |hs| == |ss| && Positive(sizes) && i < |ss| && ss[i] != OK
    ensures base + Sum(sizes[..i]) in Layout(base, sizes, hs).Keys - UnmappedOf(base, sizes, ss)
    decreases |sizes|
  {
    var n := |sizes| - 1;
    LayoutGrows(base, sizes, hs);
    UnmappedRange(base, sizes[..n], ss[..n]);
    if i < n {
      NotUnmapped(base, sizes[..n], hs[..n], ss[..n], i);
      assert sizes[..n][..i] == sizes[..i];
      SumIncreases(sizes, i, n);
    }
  }

  /** Failure atomicity, exactly: a failing `create_and_map` leaves handles and mappings as they
      were if and only if every rollback call succeeds. */
  lemma AtomicIff(d: Device, f: Fate, base: nat, sizes: seq<nat>, cells: seq<nat>)
    requires Vacant(d, base, sizes) && |cells| == |sizes| && Fails(d, f, base, sizes)
    ensures var o := CreateAndMap(d, f, OK, base, sizes, cells);
            && o.err != OK
            && (o.device.live == d.live && o.device.mapped == d.mapped <==>
                FirstError(Rollback(d, f, base, sizes)) == OK)
  {
    var rb := Rollback(d, f, base, sizes);
    FirstErrorIs(rb);
    CreateAllAdds(d, f, sizes);
    var (e, s, hs) := CreateAll(d, f, sizes);
    assert Members(hs) !! d.live;
    if s != OK {
      CreateResidue(d, f, base, sizes, cells);
      if i :| 0 <= i < |rb| && rb[i] != OK {
        NotReleased(hs, rb, i);
      } else {
        assert ReleasedOf(hs, rb) == Members(hs);
        assert d.live + (Members(hs) - ReleasedOf(hs, rb)) == d.live;
      }
    } else {
      MapAtomicIff(d, f, base, sizes, cells);
    }
  }

  lemma MapAtomicIff(d: Device, f: Fate, base: nat, sizes: seq<nat>, cells: seq<nat>)
    requires Vacant(d, base, sizes) && |cells| == |sizes| && CreateAll(d, f, sizes).1 == OK && Fails(d, f, base, sizes)
    ensures var o := CreateAndMap(d, f, OK, base, sizes, cells);
            && o.err != OK
            && (o.device.live == d.live && o.device.mapped == d.mapped <==>
                FirstError(Rollback(d, f, base, sizes)) == OK)
  {
    MapResidue(d, f, base, sizes, cells);
    CreateAllAdds(d, f, sizes);
    var (e, s, hs) := CreateAll(d, f, sizes);
    var (g, t, k) := MapAll(e, f, base, sizes, hs);
    var (x, ss) := UnmapAll(g, f, base, sizes[..k]);
    LayoutFresh(d, base, sizes, hs, k);
    ResidueEmptyIff(d, base, sizes[..k], hs[..k], ss, hs, ReleaseAll(x, f, hs).1);
  }

  /** Nothing stays behind exactly when all statuses are OK. */
  lemma ResidueEmptyIff(d: Device, base: nat, sizes: seq<nat>, mapped: seq<nat>, ss: seq<int>, hs: seq<nat>,
                        ts: seq<int>)
    requires |sizes| == |mapped| == |ss| && |hs| == |ts| && Positive(sizes) && Distinct(hs)
    requires Layout(base, sizes, mapped).Keys !! d.mapped.Keys && Members(hs) !! d.live
    ensures (d.live + (Members(hs) - ReleasedOf(hs, ts)) == d.live &&
             d.mapped + (Layout(base, sizes, mapped) - UnmappedOf(base, sizes, ss)) == d.mapped)
       <==> FirstError(ss + ts) == OK
  {
    var l, u := Layout(base, sizes, mapped), UnmappedOf(base, sizes, ss);
    FirstErrorIs(ss + ts);
    if i :| 0 <= i < |ss| && ss[i] != OK {
      assert (ss + ts)[i] != OK;
      NotUnmapped(base, sizes, mapped, ss, i);
      var a := base + Sum(sizes[..i]);
      assert a in (d.mapped + (l - u)) && a !in d.mapped;
    } else if i :| 0 <= i < |ts| && ts[i] != OK {
      assert (ss + ts)[|ss| + i] != OK;
      NotReleased(hs, ts, i);
    } else {
      UnmappedAll(base, sizes, mapped, ss);
      assert d.mapped + (l - u) == d.mapped;
      assert ReleasedOf(hs, ts) == Members(hs);
      assert d.live + (Members(hs) - ReleasedOf(hs, ts)) == d.live;
    }
  }

  /** With a stale error code on entry, `create_and_map` reports failure and leaves one live handle
      behind, unless that one creation happens to fail. */
  lemma StaleErrorLeaks(d: Device, f: Fate, err: int, base: nat, sizes: seq<nat>, cells: seq<nat>)
    requires Vacant(d, base, sizes) && |cells| == |sizes| > 0 && err != OK
    ensures var o := CreateAndMap(d, f, err, base, sizes, cells);
            && o.err != OK && o.device.mapped == d.mapped
            && (f.status(Create, d.calls) == OK ==> o.device.live == d.live + {d.calls} && d.calls !in d.live)
            && (f.status(Create, d.calls) != OK ==> o.device.live == d.live)
  {
  }

  /** A failure to set access is reported, but nothing is undone. */
  lemma AccessFailureKeepsMapping(d: Device, f: Fate, base: nat, sizes: seq<nat>, cells: seq<nat>)
    requires Vacant(d, base, sizes) && |cells| == |sizes| && !Fails(d, f, base, sizes)
    ensures var o := CreateAndMap(d, f, OK, base, sizes, cells);
            && o.err == f.status(SetAccess, o.device.calls - 1)
            && o.device == d.(live := d.live + Members(o.cells), mapped := d.mapped + Layout(base, sizes, o.cells),
                              calls := o.device.calls)
  {
    MappableAfterCreate(d, f, base, sizes);
    var (e, s, hs) := CreateAll(d, f, sizes);
    MapAllAdds(e, f, base, sizes, hs);
    var (g, t, k) := MapAll(e, f, base, sizes, hs);
    assert sizes[..k] == sizes && hs[..k] == hs;
  }
}
