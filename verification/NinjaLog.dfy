/** The build-log reader: it keeps a suffix of the log that can be one build, grouped by command. */
module NinjaLog {

  /** A line that does not have five fields, or the fields that matter of one that has. */
  datatype Line = Malformed | Record(start: int, end: int, name: string, hash: string)

  /** One command of the build, with the names of its outputs. */
  datatype Group = Group(hash: string, start: int, end: int, names: seq<string>)

  datatype Result = Targets(value: seq<Group>) | BadHeader

  const HEADER := "# ninja log v5\n"

  type Log = rs: seq<Line> | forall i :: 0 <= i < |rs| ==> rs[i].Record?

  function Records(lines: seq<Line>): Log {
    if lines == [] then []
    else
      var n := |lines| - 1;
      Records(lines[..n]) + if lines[n].Record? then [lines[n]] else []
  }

  // ----- grouping

  predicate HasHash(gs: seq<Group>, hash: string) {
    exists i :: 0 <= i < |gs| && gs[i].hash == hash
  }

  /** Position of the first group with this hash, or the number of groups. */
  function Find(gs: seq<Group>, hash: string): (i: nat)
    ensures i <= |gs| && (i < |gs| ==> gs[i].hash == hash)
    ensures forall j :: 0 <= j < i ==> gs[j].hash != hash
  {
    if gs == [] || gs[0].hash == hash then 0 else 1 + Find(gs[1..], hash)
  }

  /** Files a record: under its hash if that is known, else as a new group. */
  function File(gs: seq<Group>, r: Line): seq<Group>
    requires r.Record?
  {
    var i := Find(gs, r.hash);
    if i < |gs| then gs[i := gs[i].(names := gs[i].names + [r.name])]
    else gs + [Group(r.hash, r.start, r.end, [r.name])]
  }

  function Grouped(rs: Log): seq<Group> {
    if rs == [] then [] else File(Grouped(rs[..|rs| - 1]), rs[|rs| - 1])
  }

  // ----- what one build looks like

  /** A later record does not end earlier, and has the same times if it is the same command. */
  predicate Follows(r: Line, later: Line)
    requires r.Record? && later.Record?
  {
    r.end <= later.end && (r.hash == later.hash ==> r.start == later.start && r.end == later.end)
  }

  predicate InOrder(rs: Log, i: nat, j: nat)
    requires i < |rs| && j < |rs|
  {
    Follows(rs[i], rs[j])
  }

  /** End times never decrease, and equal commands have equal times. */
  ghost predicate OneBuild(rs: Log) {
    forall i, j :: 0 <= i < j < |rs| ==> InOrder(rs, i, j)
  }

  /** Some group has the record's hash and other times. */
  predicate Clashes(gs: seq<Group>, r: Line)
    requires r.Record?
  {
    var i := Find(gs, r.hash);
    i < |gs| && (gs[i].start != r.start || gs[i].end != r.end)
  }

  /** No earlier end time, and no clash with what is filed. */
  predicate Continues(rs: Log, r: Line)
    requires r.Record?
  {
    (rs != [] ==> rs[|rs| - 1].end <= r.end) && !Clashes(Grouped(rs), r)
  }

  /** The records kept: a record that does not continue what was kept so far throws it away. */
  function Kept(rs: Log): Log {
    if rs == [] then []
    else
      var n := |rs| - 1;
      var kept := Kept(rs[..n]);
      (if Continues(kept, rs[n]) then kept else []) + [rs[n]]
  }

  // ----- properties of grouping

  function NamesOf(rs: Log, hash: string): seq<string> {
    if rs == [] then []
    else
      var n := |rs| - 1;
      NamesOf(rs[..n], hash) + if rs[n].hash == hash then [rs[n].name] else []
  }

  ghost predicate DistinctHashes(gs: seq<Group>) {
    forall i, j :: 0 <= i < j < |gs| ==> gs[i].hash != gs[j].hash
  }

  /** Grouping loses and repeats no name: hashes are distinct, every record's hash has a group, and a
      group's names are exactly those of its records, in order. */
  lemma {:induction false} GroupsAreExact(rs: Log)
    ensures DistinctHashes(Grouped(rs))
    ensures forall i :: 0 <= i < |Grouped(rs)| ==> Grouped(rs)[i].names == NamesOf(rs, Grouped(rs)[i].hash)
    ensures forall h :: NamesOf(rs, h) != [] ==> HasHash(Grouped(rs), h)
    decreases |rs|
  {
    if rs != [] {
      var n := |rs| - 1;
      GroupsAreExact(rs[..n]);
      FileIsExact(Grouped(rs[..n]), rs);
    }
  }

  lemma FileIsExact(gs: seq<Group>, rs: Log)
    requires rs != [] && DistinctHashes(gs)
    requires forall i :: 0 <= i < |gs| ==> gs[i].names == NamesOf(rs[..|rs| - 1], gs[i].hash)
    requires forall h :: NamesOf(rs[..|rs| - 1], h) != [] ==> HasHash(gs, h)
    ensures var out := File(gs, rs[|rs| - 1]);
            && DistinctHashes(out)
            && (forall i :: 0 <= i < |out| ==> out[i].names == NamesOf(rs, out[i].hash))
            && (forall h :: NamesOf(rs, h) != [] ==> HasHash(out, h))
  {
    var n := |rs| - 1;
    var r := rs[n];
    var out, i := File(gs, r), Find(gs, r.hash);
    if i == |gs| {
      assert !HasHash(gs, r.hash);
      assert NamesOf(rs[..n], r.hash) == [];
    }
    forall h | NamesOf(rs, h) != [] ensures HasHash(out, h) {
      if h == r.hash {
        assert out[i].hash == h;
      } else {
        assert HasHash(gs, h);
        var j :| 0 <= j < |gs| && gs[j].hash == h;
        assert out[j].hash == h;
      }
    }
  }

  function NameCount(gs: seq<Group>): nat {
    if gs == [] then 0 else NameCount(gs[..|gs| - 1]) + |gs[|gs| - 1].names|
  }

  lemma {:induction false} NameCountUpdate(gs: seq<Group>, i: nat, g: Group)
    requires i < |gs|
    ensures NameCount(gs[i := g]) == NameCount(gs) - |gs[i].names| + |g.names|
    decreases |gs|
  {
    var n := |gs| - 1;
    if i == n {
      assert gs[i := g][..n] == gs[..n];
    } else {
      assert gs[i := g][..n] == gs[..n][i := g];
      NameCountUpdate(gs[..n], i, g);
    }
  }

  /** As many names as records. */
  lemma {:induction false} NamesAreConserved(rs: Log)
    ensures NameCount(Grouped(rs)) == |rs|
    decreases |rs|
  {
    if rs != [] {
      var n := |rs| - 1;
      NamesAreConserved(rs[..n]);
      var gs, i := Grouped(rs[..n]), Find(Grouped(rs[..n]), rs[n].hash);
      if i < |gs| {
        NameCountUpdate(gs, i, gs[i].(names := gs[i].names + [rs[n].name]));
      } else {
        var g := Group(rs[n].hash, rs[n].start, rs[n].end, [rs[n].name]);
        assert (gs + [g])[..|gs|] == gs;
      }
    }
  }

  /** `at` lists, in order, the positions of the lines that are records, and `rs` the records. */
  ghost predicate Selects(lines: seq<Line>, at: seq<nat>, rs: Log) {
    && |at| == |rs|
    && (forall i, j :: 0 <= i < j < |at| ==> at[i] < at[j])
    && (forall i :: 0 <= i < |at| ==> at[i] < |lines| && lines[at[i]] == rs[i])
    && (forall p: nat :: p < |lines| ==> (p in at <==> lines[p].Record?))
  }

  lemma SelectsSnoc(lines: seq<Line>, at: seq<nat>, rs: Log, line: Line)
    requires Selects(lines, at, rs)
    ensures line.Malformed? ==> Selects(lines + [line], at, rs)
    ensures line.Record? ==> Selects(lines + [line], at + [|lines|], rs + [line])
  {
    assert |lines| !in at;
  }

  /** Only malformed lines are passed over, and the records keep their order. */
  lemma {:induction false} RecordsAreSelected(lines: seq<Line>) returns (at: seq<nat>)
    ensures Selects(lines, at, Records(lines))
    decreases |lines|
  {
    if lines == [] {
      at := [];
    } else {
      var n := |lines| - 1;
      assert lines == lines[..n] + [lines[n]];
      at := RecordsAreSelected(lines[..n]);
      SelectsSnoc(lines[..n], at, Records(lines[..n]), lines[n]);
      at := if lines[n].Record? then at + [n] else at;
    }
  }

  /** Record `j` is the first with the hash of group `g`, and gave it its times. */
  predicate FirstFor(rs: Log, g: Group, j: nat) {
    && j < |rs| && g.hash == rs[j].hash && g.start == rs[j].start && g.end == rs[j].end
    && forall i :: 0 <= i < j ==> rs[i].hash != g.hash
  }

  /** `first` lists the first record of each group, in order, and no record is without a group. */
  ghost predicate Founded(rs: Log, gs: seq<Group>, first: seq<nat>) {
    && |first| == |gs|
    && (forall k, l :: 0 <= k < l < |first| ==> first[k] < first[l])
    && (forall k :: 0 <= k < |gs| ==> FirstFor(rs, gs[k], first[k]))
    && (forall i :: 0 <= i < |rs| ==> HasHash(gs, rs[i].hash))
  }

  lemma FirstStays(rs: Log, r: Line, g: Group, names: seq<string>, j: nat)
    requires r.Record? && FirstFor(rs, g, j)
    ensures FirstFor(rs + [r], g.(names := names), j)
  {
  }

  /** Filing under a known hash. */
  lemma FoundedOld(rs: Log, gs: seq<Group>, first: seq<nat>, r: Line, i: nat, names: seq<string>)
    requires r.Record? && Founded(rs, gs, first) && i < |gs| && gs[i].hash == r.hash
    ensures Founded(rs + [r], gs[i := gs[i].(names := names)], first)
  {
    var out := gs[i := gs[i].(names := names)];
    var more: Log := rs + [r];
    forall k | 0 <= k < |out| ensures FirstFor(more, out[k], first[k]) {
      FirstStays(rs, r, gs[k], out[k].names, first[k]);
    }
    forall j | 0 <= j < |more| ensures HasHash(out, more[j].hash) {
      SameHashes(gs, out, if j < |rs| then rs[j].hash else r.hash);
    }
  }

  lemma SameHashes(gs: seq<Group>, out: seq<Group>, hash: string)
    requires |gs| <= |out| && HasHash(gs, hash) && forall k :: 0 <= k < |gs| ==> out[k].hash == gs[k].hash
    ensures HasHash(out, hash)
  {
    var k :| 0 <= k < |gs| && gs[k].hash == hash;
    assert out[k].hash == hash;
  }

  /** Filing under a new one. */
  lemma FoundedNew(rs: Log, gs: seq<Group>, first: seq<nat>, r: Line, g: Group)
    requires r.Record? && Founded(rs, gs, first) && !HasHash(gs, r.hash) && Matches(g, r)
    ensures Founded(rs + [r], gs + [g], first + [|rs|])
  {
    var out, firsts := gs + [g], first + [|rs|];
    var more: Log := rs + [r];
    forall k | 0 <= k < |out| ensures FirstFor(more, out[k], firsts[k]) {
      if k < |gs| {
        FirstStays(rs, r, gs[k], gs[k].names, first[k]);
      }
    }
    forall j | 0 <= j < |more| ensures HasHash(out, more[j].hash) {
      if j < |rs| {
        SameHashes(gs, out, rs[j].hash);
      } else {
        assert out[|gs|].hash == r.hash;
      }
    }
  }

  lemma FoundedSnoc(rs: Log, gs: seq<Group>, first: seq<nat>, r: Line) returns (firsts: seq<nat>)
    requires r.Record? && Founded(rs, gs, first)
    ensures Founded(rs + [r], File(gs, r), firsts)
  {
    var i := Find(gs, r.hash);
    if i < |gs| {
      FoundedOld(rs, gs, first, r, i, gs[i].names + [r.name]);
      firsts := first;
    } else {
      FoundedNew(rs, gs, first, r, Group(r.hash, r.start, r.end, [r.name]));
      firsts := first + [|rs|];
    }
  }

  /** Groups come in the order of their first records and have the times of these, in every log. */
  lemma {:induction false} GroupsAreFounded(rs: Log) returns (first: seq<nat>)
    ensures Founded(rs, Grouped(rs), first)
    decreases |rs|
  {
    if rs == [] {
      first := [];
    } else {
      var n := |rs| - 1;
      first := GroupsAreFounded(rs[..n]);
      first := FoundedSnoc(rs[..n], Grouped(rs[..n]), first, rs[n]);
      assert rs[..n] + [rs[n]] == rs;
    }
  }

  // ----- properties of the kept suffix

  /** The group has the hash and times of the record. */
  predicate Matches(g: Group, r: Line)
    requires r.Record?
  {
    g.hash == r.hash && g.start == r.start && g.end == r.end
  }

  predicate FoundWithTimes(gs: seq<Group>, r: Line)
    requires r.Record?
  {
    var k := Find(gs, r.hash);
    k < |gs| && Matches(gs[k], r)
  }

  lemma PrefixIsOneBuild(rs: Log, n: nat)
    requires OneBuild(rs) && n <= |rs|
    ensures OneBuild(rs[..n])
  {
    forall i, j | 0 <= i < j < n ensures InOrder(rs[..n], i, j) {
      assert InOrder(rs, i, j);
    }
  }

  /** A group carries the times of all its records, if these agree. */
  lemma {:induction false} GroupTimes(rs: Log, i: nat)
    requires OneBuild(rs) && i < |rs|
    ensures FoundWithTimes(Grouped(rs), rs[i])
    decreases |rs|
  {
    var n := |rs| - 1;
    if i < n {
      PrefixIsOneBuild(rs, n);
      GroupTimes(rs[..n], i);
      OlderTimes(rs, i);
    } else {
      NewestTimes(rs);
    }
  }

  lemma OlderTimes(rs: Log, i: nat)
    requires i < |rs| - 1 && FoundWithTimes(Grouped(rs[..|rs| - 1]), rs[..|rs| - 1][i])
    ensures FoundWithTimes(Grouped(rs), rs[i])
  {
    FoundAfterFile(Grouped(rs[..|rs| - 1]), rs[|rs| - 1], rs[i]);
  }

  lemma FoundAfterFile(gs: seq<Group>, filed: Line, r: Line)
    requires filed.Record? && r.Record? && FoundWithTimes(gs, r)
    ensures FoundWithTimes(File(gs, filed), r)
  {
    FindAfterFile(gs, filed, r.hash);
  }

  lemma NewestTimes(rs: Log)
    requires OneBuild(rs) && rs != []
    ensures FoundWithTimes(Grouped(rs), rs[|rs| - 1])
  {
    var n := |rs| - 1;
    var gs := Grouped(rs[..n]);
    var k := Find(gs, rs[n].hash);
    if k < |gs| {
      var j := FromARecord(rs[..n], k);
      assert InOrder(rs, j, n);
      FindAfterFile(gs, rs[n], rs[n].hash);
    } else {
      FindNew(gs, Group(rs[n].hash, rs[n].start, rs[n].end, [rs[n].name]));
    }
  }

  lemma {:induction false} FindUnique(gs: seq<Group>, hash: string, k: nat)
    requires k < |gs| && gs[k].hash == hash && forall j :: 0 <= j < k ==> gs[j].hash != hash
    ensures Find(gs, hash) == k
  {
    var i := Find(gs, hash);
  }

  /** Filing a record does not move the group another hash is found at. */
  lemma FindAfterFile(gs: seq<Group>, r: Line, hash: string)
    requires r.Record? && Find(gs, hash) < |gs|
    ensures Find(File(gs, r), hash) == Find(gs, hash)
    ensures File(gs, r)[Find(gs, hash)].start == gs[Find(gs, hash)].start
    ensures File(gs, r)[Find(gs, hash)].end == gs[Find(gs, hash)].end
  {
    FindUnique(File(gs, r), hash, Find(gs, hash));
  }

  lemma FindNew(gs: seq<Group>, g: Group)
    requires Find(gs, g.hash) == |gs|
    ensures Find(gs + [g], g.hash) == |gs|
  {
    FindUnique(gs + [g], g.hash, |gs|);
  }

  /** Every group has the hash and times of one of the records. */
  lemma {:induction false} FromARecord(rs: Log, k: nat) returns (j: nat)
    requires k < |Grouped(rs)|
    ensures j < |rs| && Matches(Grouped(rs)[k], rs[j])
    decreases |rs|
  {
    var n := |rs| - 1;
    if k < |Grouped(rs[..n])| {
      j := FromARecord(rs[..n], k);
    } else {
      j := n;
    }
  }

  lemma ExtendedContinues(rs: Log, r: Line)
    requires r.Record? && OneBuild(rs + [r])
    ensures Continues(rs, r)
  {
    var n := |rs|;
    var out: Log := rs + [r];
    var k := Find(Grouped(rs), r.hash);
    if k < |Grouped(rs)| {
      var j := FromARecord(rs, k);
      assert InOrder(out, j, n);
    }
    if n > 0 {
      assert InOrder(out, n - 1, n);
    }
  }

  lemma ContinuedFollows(rs: Log, r: Line, i: nat)
    requires r.Record? && OneBuild(rs) && Continues(rs, r) && i < |rs|
    ensures Follows(rs[i], r)
  {
    GroupTimes(rs, i);
    assert i < |rs| - 1 ==> InOrder(rs, i, |rs| - 1);
  }

  lemma ContinuedExtends(rs: Log, r: Line)
    requires r.Record? && OneBuild(rs) && Continues(rs, r)
    ensures OneBuild(rs + [r])
  {
    var n := |rs|;
    var out: Log := rs + [r];
    forall i, j | 0 <= i < j < |out| ensures InOrder(out, i, j) {
      if j == n {
        ContinuedFollows(rs, r, i);
      } else {
        assert InOrder(rs, i, j);
      }
    }
  }

  lemma KeptSnoc(rs: Log, r: Line)
    requires r.Record?
    ensures Kept(rs + [r]) == (if Continues(Kept(rs), r) then Kept(rs) else []) + [r]
  {
    assert (rs + [r])[..|rs|] == rs;
  }

  lemma GroupedSnoc(rs: Log, r: Line)
    requires r.Record?
    ensures Grouped(rs + [r]) == File(Grouped(rs), r)
  {
    assert (rs + [r])[..|rs|] == rs;
  }

  lemma RecordsSnoc(lines: seq<Line>, line: Line)
    ensures Records(lines + [line]) == if line.Record? then Records(lines) + [line] else Records(lines)
  {
    assert (lines + [line])[..|lines|] == lines;
  }

  /** What is kept is a contiguous suffix of the records, with the last record in it. */
  lemma KeptIsSuffix(rs: Log)
    ensures |Kept(rs)| <= |rs| && (rs != [] ==> Kept(rs) != [])
    ensures Kept(rs) == rs[|rs| - |Kept(rs)|..]
  {
    KeptEnds(rs);
    EndIsSuffix(rs, Kept(rs));
  }

  predicate EndsWith(rs: Log, kept: Log) {
    |kept| <= |rs| && forall i :: 0 <= i < |kept| ==> kept[i] == rs[|rs| - |kept| + i]
  }

  lemma EndIsSuffix(rs: Log, kept: Log)
    requires EndsWith(rs, kept)
    ensures kept == rs[|rs| - |kept|..]
  {
  }

  lemma EndsSnoc(rs: Log, kept: Log)
    requires rs != [] && EndsWith(rs[..|rs| - 1], kept)
    ensures EndsWith(rs, kept + [rs[|rs| - 1]])
  {
  }

  lemma {:induction false} KeptEnds(rs: Log)
    ensures EndsWith(rs, Kept(rs)) && (rs != [] ==> Kept(rs) != [])
    decreases |rs|
  {
    if rs != [] {
      var n := |rs| - 1;
      KeptEnds(rs[..n]);
      EndsSnoc(rs, Kept(rs[..n]));
      EndsSnoc(rs, []);
    }
  }

  /** What is kept is one build. */
  lemma {:induction false} KeptIsOneBuild(rs: Log)
    ensures OneBuild(Kept(rs))
    decreases |rs|
  {
    if rs != [] {
      var n := |rs| - 1;
      KeptIsOneBuild(rs[..n]);
      if Continues(Kept(rs[..n]), rs[n]) {
        ContinuedExtends(Kept(rs[..n]), rs[n]);
      }
    }
  }

  /** Records are thrown away only when they and the new record are not one build. */
  lemma KeptIff(rs: Log, r: Line)
    requires r.Record?
    ensures Kept(rs + [r]) == if OneBuild(Kept(rs) + [r]) then Kept(rs) + [r] else [r]
  {
    if OneBuild(Kept(rs) + [r]) {
      KeptSnoc(rs, r);
      ExtendedContinues(Kept(rs), r);
    } else {
      Dropped(rs, r);
    }
  }

  /** Nothing is thrown away exactly when the whole log is one build. */
  lemma {:induction false} AllKeptIff(rs: Log)
    ensures Kept(rs) == rs <==> OneBuild(rs)
    decreases |rs|
  {
    KeptIsOneBuild(rs);
    if rs != [] && OneBuild(rs) {
      var n := |rs| - 1;
      PrefixIsOneBuild(rs, n);
      AllKeptIff(rs[..n]);
      assert rs[..n] + [rs[n]] == rs;
      KeptIff(rs[..n], rs[n]);
    }
  }

  lemma BrokenBuild(rs: Log, r: Line, i: nat)
    requires r.Record? && i < |rs| && !Follows(rs[i], r)
    ensures !OneBuild(rs + [r])
  {
    var more: Log := rs + [r];
    assert !InOrder(more, i, |rs|);
  }

  lemma Dropped(rs: Log, r: Line)
    requires r.Record? && !OneBuild(Kept(rs) + [r])
    ensures Kept(rs + [r]) == [r]
  {
    KeptSnoc(rs, r);
    KeptIsOneBuild(rs);
    if Continues(Kept(rs), r) {
      ContinuedExtends(Kept(rs), r);
    }
  }

  /** One record that the new one does not follow costs all that was kept. */
  lemma DropsAll(rs: Log, r: Line, i: nat)
    requires r.Record? && i < |Kept(rs)| && !Follows(Kept(rs)[i], r)
    ensures Kept(rs + [r]) == [r]
  {
    BrokenBuild(Kept(rs), r, i);
    Dropped(rs, r);
  }

  // ----- when the kept suffix is the longest

  /** The last `n` records. */
  ghost function Last(rs: Log, n: nat): Log
    requires n <= |rs|
  {
    rs[|rs| - n..]
  }

  /** The last `n` records are one build, and no longer suffix is. */
  ghost predicate Longest(rs: Log, n: nat) {
    n <= |rs| && OneBuild(Last(rs, n)) && forall m :: n < m <= |rs| ==> TooLong(rs, m)
  }

  ghost predicate TooLong(rs: Log, n: nat)
    requires n <= |rs|
  {
    !OneBuild(Last(rs, n))
  }

  lemma SuffixIsOneBuild(rs: Log, k: nat)
    requires k <= |rs| && OneBuild(rs)
    ensures OneBuild(rs[k..])
  {
    forall i, j | 0 <= i < j < |rs| - k ensures InOrder(rs[k..], i, j) {
      assert InOrder(rs, k + i, k + j);
    }
  }

  /** A suffix is the longest exactly when the one that is longer by one record is not one build. */
  lemma LongestIfNext(rs: Log, n: nat)
    requires n <= |rs| && OneBuild(Last(rs, n))
    ensures Longest(rs, n) <==> n == |rs| || !OneBuild(Last(rs, n + 1))
  {
    assert n < |rs| && Longest(rs, n) ==> TooLong(rs, n + 1);
    if n < |rs| && !OneBuild(Last(rs, n + 1)) {
      forall m | n < m <= |rs| ensures TooLong(rs, m) {
        assert Last(rs, m)[m - n - 1..] == Last(rs, n + 1);
        if OneBuild(Last(rs, m)) {
          SuffixIsOneBuild(Last(rs, m), m - n - 1);
        }
      }
    }
  }

  predicate FollowedBy(x: Line, rs: Log, j: nat)
    requires x.Record? && j < |rs|
  {
    Follows(x, rs[j])
  }

  /** All of the records follow `x`. */
  ghost predicate FollowedByAll(x: Line, rs: Log)
    requires x.Record?
  {
    forall j :: 0 <= j < |rs| ==> FollowedBy(x, rs, j)
  }

  lemma OneBuildCons(x: Line, rs: Log)
    requires x.Record? && OneBuild(rs)
    ensures OneBuild([x] + rs) <==> FollowedByAll(x, rs)
  {
    var more: Log := [x] + rs;
    if OneBuild(more) {
      forall j | 0 <= j < |rs| ensures FollowedBy(x, rs, j) {
        assert InOrder(more, 0, j + 1);
      }
    }
    if FollowedByAll(x, rs) {
      forall i, j | 0 <= i < j < |more| ensures InOrder(more, i, j) {
        if i == 0 {
          assert FollowedBy(x, rs, j - 1);
        } else {
          assert InOrder(rs, i - 1, j - 1);
        }
      }
    }
  }

  lemma LongerByOne(rs: Log, n: nat)
    requires n < |rs| && OneBuild(Last(rs, n))
    ensures OneBuild(Last(rs, n + 1)) <==> FollowedByAll(rs[|rs| - n - 1], Last(rs, n))
  {
    OneBuildCons(rs[|rs| - n - 1], Last(rs, n));
    assert Last(rs, n + 1) == [rs[|rs| - n - 1]] + Last(rs, n);
  }

  lemma LongestSuffixIff(rs: Log, n: nat)
    requires n <= |rs| && OneBuild(Last(rs, n))
    ensures Longest(rs, n) <==> n == |rs| || !FollowedByAll(rs[|rs| - n - 1], Last(rs, n))
  {
    LongestIfNext(rs, n);
    if n < |rs| {
      LongerByOne(rs, n);
    }
  }

  ghost predicate IsSuffix(kept: Log, rs: Log) {
    |kept| <= |rs| && kept == Last(rs, |kept|)
  }

  /** Nothing was thrown away, or the last record thrown away is not followed by all that is kept. */
  ghost predicate CutWasNeeded(rs: Log, kept: Log) {
    |kept| < |rs| ==> !FollowedByAll(rs[|rs| - |kept| - 1], kept)
  }

  lemma LongestCut(rs: Log, kept: Log)
    requires IsSuffix(kept, rs) && OneBuild(kept)
    ensures Longest(rs, |kept|) <==> CutWasNeeded(rs, kept)
  {
    LongestSuffixIff(rs, |kept|);
  }

  lemma KeptIsLast(rs: Log)
    ensures IsSuffix(Kept(rs), rs)
  {
    KeptIsSuffix(rs);
  }

  /** What is kept is the longest suffix that is one build exactly when nothing was thrown away, or the
      last record thrown away is not followed by all that is kept. */
  lemma LongestIff(rs: Log)
    ensures Longest(rs, |Kept(rs)|) <==> CutWasNeeded(rs, Kept(rs))
  {
    KeptIsLast(rs);
    KeptIsOneBuild(rs);
    LongestCut(rs, Kept(rs));
  }

  ghost predicate NextKept(kept: Log, r: Line, after: Log)
    requires r.Record?
  {
    after == if OneBuild(kept + [r]) then kept + [r] else [r]
  }

  lemma KeptNext(rs: Log, r: Line)
    requires r.Record?
    ensures NextKept(Kept(rs), r, Kept(rs + [r]))
  {
    KeptIff(rs, r);
  }

  /** The same for any suffix that is kept, and what is kept after one record more. */
  lemma StepLongest(rs: Log, kept: Log, r: Line, after: Log)
    requires r.Record? && IsSuffix(kept, rs) && Longest(rs, |kept|)
    requires NextKept(kept, r, after)
    ensures Longest(rs + [r], |after|) <==> OneBuild(kept + [r]) || rs == [] || !Follows(rs[|rs| - 1], r)
  {
    if OneBuild(kept + [r]) {
      ExtendsLongest(rs, r, |kept|);
    } else {
      AloneIsLongest(rs, r);
    }
  }

  /** One record more: if the longest suffix was kept so far, it still is exactly when the record does
      not cost it, or does not even follow the record before it. So a reset because of an earlier end time
      loses nothing that could be kept, and one because of a clash does unless it is with the last record. */
  lemma StaysLongestIff(rs: Log, r: Line)
    requires r.Record? && Longest(rs, |Kept(rs)|)
    ensures Longest(rs + [r], |Kept(rs + [r])|) <==>
            OneBuild(Kept(rs) + [r]) || rs == [] || !Follows(rs[|rs| - 1], r)
  {
    var kept, after := KeptThen(rs, r);
    StepLongest(rs, kept, r, after);
  }

  /** What is kept before and after one record. */
  lemma KeptThen(rs: Log, r: Line) returns (kept: Log, after: Log)
    requires r.Record?
    ensures kept == Kept(rs) && IsSuffix(kept, rs)
    ensures after == Kept(rs + [r]) && NextKept(kept, r, after)
  {
    KeptIsLast(rs);
    KeptNext(rs, r);
    kept, after := Kept(rs), Kept(rs + [r]);
  }

  lemma ExtendsLongest(rs: Log, r: Line, n: nat)
    requires r.Record? && Longest(rs, n) && OneBuild(Last(rs, n) + [r])
    ensures Longest(rs + [r], n + 1)
  {
    var more: Log := rs + [r];
    assert Last(more, n + 1) == Last(rs, n) + [r];
    forall m | n + 1 < m <= |more| ensures TooLong(more, m) {
      assert TooLong(rs, m - 1);
      assert Last(more, m)[..m - 1] == Last(rs, m - 1);
      if OneBuild(Last(more, m)) {
        PrefixIsOneBuild(Last(more, m), m - 1);
      }
    }
  }

  lemma AloneIsLongest(rs: Log, r: Line)
    requires r.Record?
    ensures Longest(rs + [r], 1) <==> rs == [] || !Follows(rs[|rs| - 1], r)
  {
    var more: Log := rs + [r];
    assert Last(more, 1) == [r];
    LongestIfNext(more, 1);
    if rs != [] {
      LongerByOne(more, 1);
      assert FollowedBy(rs[|rs| - 1], Last(more, 1), 0) <==> Follows(rs[|rs| - 1], r);
    }
  }

  lemma Pair(x: Line, y: Line)
    requires x.Record? && y.Record? && Follows(x, y)
    ensures OneBuild([x, y])
  {
    var rs: Log := [x, y];
    assert InOrder(rs, 0, 1);
  }

  lemma KeptPair(x: Line, y: Line)
    requires x.Record? && y.Record? && Follows(x, y)
    ensures Kept([x, y]) == [x, y]
  {
    Pair(x, y);
    AllKeptIff([x, y]);
  }

  /** A clash throws away everything kept, also a record that does not clash. */
  lemma KeptIsNotLongest()
    ensures exists x: Line, y: Line, z: Line ::
              x.Record? && y.Record? && z.Record? && Kept([x, y] + [z]) == [z] && OneBuild([y, z])
  {
    var x, y, z := Record(0, 1, "a", "x"), Record(1, 2, "b", "y"), Record(2, 3, "a", "x");
    assert "x"[0] != "y"[0];
    KeptPair(x, y);
    DropsAll([x, y], z, 0);
    Pair(y, z);
  }

  // ----- the reader

  /** The records the reader reports. */
  ghost function Reported(lines: seq<Line>, showAll: bool): Log {
    if showAll then Records(lines) else Kept(Records(lines))
  }

  /** What the reader holds after the given lines. */
  ghost predicate HasRead(lines: seq<Line>, showAll: bool, targets: seq<Group>, lastEndSeen: int) {
    var rs := Reported(lines, showAll);
    targets == Grouped(rs) && (rs != [] ==> lastEndSeen == rs[|rs| - 1].end)
  }

  /** A record is filed with what is kept, or alone. */
  lemma ReportedNext(before: seq<Line>, line: Line, showAll: bool)
    requires line.Record?
    ensures var rs, more := Reported(before, showAll), Reported(before + [line], showAll);
            && more != [] && more[|more| - 1] == line
            && Grouped(more) == File(if showAll || Continues(rs, line) then Grouped(rs) else [], line)
  {
    RecordsSnoc(before, line);
    KeptSnoc(Records(before), line);
    if showAll || Continues(Reported(before, showAll), line) {
      GroupedSnoc(Reported(before, showAll), line);
    } else {
      GroupedSnoc([], line);
    }
  }

  /** The body of the loop over the log. */
  method ReadLine(ghost before: seq<Line>, line: Line, showAll: bool, targets: seq<Group>, lastEndSeen: int)
    returns (targets': seq<Group>, lastEndSeen': int)
    requires HasRead(before, showAll, targets, lastEndSeen)
    ensures HasRead(before + [line], showAll, targets', lastEndSeen')
  {
    targets', lastEndSeen' := targets, lastEndSeen;
    RecordsSnoc(before, line);
    if line.Record? {
      ReportedNext(before, line, showAll);
      if !showAll && line.end < lastEndSeen {
        targets' := [];
      }
      var i := Find(targets', line.hash);
      if i < |targets'| && !showAll && (targets'[i].start != line.start || targets'[i].end != line.end) {
        targets' := [];
      }
      targets' := File(targets', line);
      lastEndSeen' := line.end;
    }
  }

  /** `ReadTargets` on the header and the lines after it. */
  method ReadTargets(header: string, lines: seq<Line>, showAll: bool) returns (r: Result)
    ensures r.BadHeader? <==> header != "# ninja log v5\n"
    ensures r.Targets? ==> r.value == Grouped(Reported(lines, showAll))
  {
    if header != HEADER {
      return BadHeader;
    }
    var targets: seq<Group>, lastEndSeen := [], 0;
    for k := 0 to |lines|
      invariant HasRead(lines[..k], showAll, targets, lastEndSeen)
    {
      targets, lastEndSeen := ReadLine(lines[..k], lines[k], showAll, targets, lastEndSeen);
      assert lines[..k] + [lines[k]] == lines[..k + 1];
    }
    assert lines[..|lines|] == lines;
    r := Targets(targets);
  }
}
