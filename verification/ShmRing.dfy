/** The shared-memory broadcast ring: one writer, several readers, and nothing but flags between them. */
module ShmRing {

  type Block = seq<int>

  /** The flags of one block. */
  datatype Meta = Meta(written: bool, read: seq<bool>)

  /** Where the writer is in `acquire_write`. */
  datatype WriterPc =
    | WIdle
    | Scan(next: nat, count: nat)   // summing the read flags
    | Clear                         // the check passed
    | Fill                          // the caller writes the block
    | Reset(next: nat)              // clearing the read flags, then setting the written flag

  /** Where a reader is in `acquire_read`. */
  datatype ReaderPc =
    | RIdle
    | Flagged(read: bool)           // its read flag was read
    | Reading(views: seq<Block>)    // the caller reads the block; each view is what it found

  datatype Writer = Writer(pc: WriterPc, idx: nat)

  /** `received` lists, for each finished read, the views of the caller. */
  datatype Reader = Reader(pc: ReaderPc, idx: nat, received: seq<seq<Block>>)

  /** `sent` lists the blocks published so far. */
  datatype State = State(blocks: seq<Block>, meta: seq<Meta>, writer: Writer, readers: seq<Reader>, sent: seq<Block>)

  ghost predicate Shape(s: State) {
    && |s.blocks| == |s.meta| > 0
    && (forall b :: 0 <= b < |s.meta| ==> |s.meta[b].read| == |s.readers|)
    && s.writer.idx < |s.blocks|
    && (forall r :: 0 <= r < |s.readers| ==> s.readers[r].idx < |s.blocks|)
    && (s.writer.pc.Scan? ==> s.writer.pc.next <= |s.readers|)
    && (s.writer.pc.Reset? ==> s.writer.pc.next <= |s.readers|)
  }

  function Start(blocks: seq<Block>, readers: nat): State {
    State(
      blocks,
      seq(|blocks|, _ => Meta(false, seq(readers, _ => false))),
      Writer(WIdle, 0),
      seq(readers, _ => Reader(RIdle, 0, [])),
      [])
  }

  // ----- steps: each reads or writes one shared location

  datatype Step =
    | BeginScan | ScanFlag | ScanWritten | ClearWritten
    | Scribble(block: Block) | EndFill | AbortFill
    | ResetFlag | SetWritten
    | ReadFlag(reader: nat) | ReadWritten(reader: nat) | View(reader: nat) | Mark(reader: nat) | AbortRead(reader: nat)

  predicate OfReader(a: Step) {
    a.ReadFlag? || a.ReadWritten? || a.View? || a.Mark? || a.AbortRead?
  }

  ghost predicate Enabled(s: State, a: Step)
    requires Shape(s)
  {
    var pc := s.writer.pc;
    if OfReader(a) then
      && a.reader < |s.readers|
      && var rpc := s.readers[a.reader].pc;
         if a.ReadFlag? then rpc.RIdle? else if a.ReadWritten? then rpc.Flagged? else rpc.Reading?
    else
      match a
      case BeginScan => pc.WIdle?
      case ScanFlag => pc.Scan? && pc.next < |s.readers|
      case ScanWritten => pc.Scan? && pc.next == |s.readers|
      case ClearWritten => pc.Clear?
      case Scribble(_) => pc.Fill?
      case EndFill => pc.Fill?
      case AbortFill => pc.Fill?
      case ResetFlag => pc.Reset? && pc.next < |s.readers|
      case SetWritten => pc.Reset? && pc.next == |s.readers|
  }

  function At(s: State, pc: WriterPc): State {
    s.(writer := s.writer.(pc := pc))
  }

  function ReaderAt(s: State, r: nat, pc: ReaderPc): State
    requires r < |s.readers|
  {
    s.(readers := s.readers[r := s.readers[r].(pc := pc)])
  }

  function WithFlag(s: State, b: nat, r: nat, flag: bool): State
    requires b < |s.meta| && r < |s.meta[b].read|
  {
    s.(meta := s.meta[b := s.meta[b].(read := s.meta[b].read[r := flag])])
  }

  function WithWritten(s: State, b: nat, flag: bool): State
    requires b < |s.meta|
  {
    s.(meta := s.meta[b := s.meta[b].(written := flag)])
  }

  ghost function Next(s: State, a: Step): State
    requires Shape(s) && Enabled(s, a)
  {
    if OfReader(a) then NextOfReader(s, a) else NextOfWriter(s, a)
  }

  ghost function NextOfWriter(s: State, a: Step): State
    requires Shape(s) && Enabled(s, a) && !OfReader(a)
  {
    var pc, b := s.writer.pc, s.writer.idx;
    match a
    case BeginScan => At(s, Scan(0, 0))
    case ScanFlag => At(s, Scan(pc.next + 1, pc.count + if s.meta[b].read[pc.next] then 1 else 0))
    case ScanWritten =>
      At(s, if s.meta[b].written && pc.count != |s.readers| then WIdle else Clear)
    case ClearWritten => At(WithWritten(s, b, false), Fill)
    case Scribble(block) => s.(blocks := s.blocks[b := block])
    case EndFill => At(s, Reset(0))
    case AbortFill => At(s, WIdle)
    case ResetFlag => At(WithFlag(s, b, pc.next, false), Reset(pc.next + 1))
    case SetWritten =>
      WithWritten(s, b, true).(
        sent := s.sent + [s.blocks[b]],
        writer := Writer(WIdle, (b + 1) % |s.blocks|))
  }

  ghost function NextOfReader(s: State, a: Step): State
    requires Shape(s) && Enabled(s, a) && OfReader(a)
  {
    var r := a.reader;
    var me := s.readers[r];
    match a
    case ReadFlag(_) => ReaderAt(s, r, Flagged(s.meta[me.idx].read[r]))
    case ReadWritten(_) =>
      ReaderAt(s, r, if s.meta[me.idx].written && !me.pc.read then Reading([]) else RIdle)
    case View(_) => ReaderAt(s, r, Reading(me.pc.views + [s.blocks[me.idx]]))
    case Mark(_) =>
      WithFlag(s, me.idx, r, true).(
        readers := s.readers[r := Reader(RIdle, (me.idx + 1) % |s.blocks|, me.received + [me.pc.views])])
    case AbortRead(_) => ReaderAt(s, r, RIdle)
  }

  lemma ShapeKept(s: State, a: Step)
    requires Shape(s) && Enabled(s, a)
    ensures Shape(Next(s, a))
    ensures |Next(s, a).readers| == |s.readers| && |Next(s, a).blocks| == |s.blocks|
  {
  }

  ghost predicate Reaches(s: State, steps: seq<Step>, s': State)
    decreases |steps|
  {
    if steps == [] then s == s'
    else Shape(s) && Enabled(s, steps[0]) && Reaches(Next(s, steps[0]), steps[1..], s')
  }

  // ----- which block a message goes to

  function Slot(c: nat, k: nat): (b: nat)
    requires c > 0
    ensures b < c
    decreases k
  {
    if k < c then k else Slot(c, k - c)
  }

  lemma {:induction false} SlotNext(c: nat, k: nat)
    requires c > 0
    ensures Slot(c, k + 1) == (Slot(c, k) + 1) % c
    decreases k
  {
    if k >= c {
      SlotNext(c, k - c);
    } else if k + 1 == c {
      assert Slot(c, c) == Slot(c, 0) == 0;
    }
  }

  /** Messages less than a lap apart are in different blocks. */
  lemma {:induction false} SlotApart(c: nat, j: nat, k: nat)
    requires c > 0 && j < k < j + c
    ensures Slot(c, j) != Slot(c, k)
    decreases j
  {
    if j >= c {
      SlotApart(c, j - c, k - c);
    } else if k >= c {
      assert Slot(c, k) == k - c;
    }
  }

  // ----- the invariant

  function Chunks(s: State): nat {
    |s.blocks|
  }

  /** Messages reader `r` has finished. */
  function Count(s: State, r: nat): nat
    requires r < |s.readers|
  {
    |s.readers[r].received|
  }

  predicate FlagIs(s: State, b: nat, r: nat, flag: bool) {
    b < |s.meta| && r < |s.meta[b].read| && s.meta[b].read[r] == flag
  }

  /** The flag of a reader says whether it has finished message `k`. */
  predicate FlagTells(s: State, k: nat, r: nat)
    requires Chunks(s) > 0 && r < |s.readers|
  {
    FlagIs(s, Slot(Chunks(s), k), r, Count(s, r) > k)
  }

  /** Message `k` is in its block, whole, and the flags say who has read it. */
  ghost predicate Live(s: State, k: nat)
    requires Shape(s)
  {
    var b := Slot(Chunks(s), k);
    && k < |s.sent|
    && s.blocks[b] == s.sent[k]
    && s.meta[b].written
    && (forall r :: 0 <= r < |s.readers| ==> FlagTells(s, k, r))
  }

  /** A block never used. */
  ghost predicate Blank(s: State, b: nat)
    requires Shape(s) && b < Chunks(s)
  {
    !s.meta[b].written && (forall r :: 0 <= r < |s.readers| ==> FlagIs(s, b, r, false))
  }

  /** All messages of the last lap but the oldest are in their blocks. */
  ghost predicate Window(s: State)
    requires Shape(s)
  {
    forall k: nat :: k < |s.sent| < k + Chunks(s) ==> Live(s, k)
  }

  ghost predicate Blanks(s: State)
    requires Shape(s)
  {
    forall b: nat :: |s.sent| < b < Chunks(s) ==> Blank(s, b)
  }

  /** Reader `r` has finished the message whose block the writer would take next. */
  predicate Passed(s: State, r: nat)
    requires r < |s.readers|
  {
    |s.sent| < Count(s, r) + Chunks(s)
  }

  /** The writer has cleared this reader's flag. */
  predicate Cleared(pc: WriterPc, r: nat) {
    pc.Reset? && r < pc.next
  }

  /** The flag of a reader in a block that the writer has taken. */
  predicate OpenFor(s: State, r: nat)
    requires r < |s.readers|
  {
    && Passed(s, r)
    && FlagIs(s, s.writer.idx, r, |s.sent| >= Chunks(s) && !Cleared(s.writer.pc, r))
  }

  /** The writer's block holds the oldest message of the lap, or is open to the writer. */
  ghost predicate Head(s: State)
    requires Shape(s)
  {
    if s.meta[s.writer.idx].written then |s.sent| >= Chunks(s) && Live(s, |s.sent| - Chunks(s))
    else forall r :: 0 <= r < |s.readers| ==> OpenFor(s, r)
  }

  ghost predicate WriterOk(s: State)
    requires Shape(s)
  {
    var pc, b := s.writer.pc, s.writer.idx;
    && b == Slot(Chunks(s), |s.sent|)
    && (pc.Fill? || pc.Reset? ==> !s.meta[b].written)
    && (pc.Scan? ==> pc.count <= pc.next)
    && (pc.Scan? && pc.count == pc.next ==> forall r :: 0 <= r < pc.next ==> FlagIs(s, b, r, true))
    && (pc.Clear? && s.meta[b].written ==> forall r :: 0 <= r < |s.readers| ==> FlagIs(s, b, r, true))
  }

  ghost predicate AllAre(views: seq<Block>, block: Block) {
    forall i :: 0 <= i < |views| ==> views[i] == block
  }

  ghost predicate Faithful(s: State, r: nat, k: nat)
    requires r < |s.readers| && k < Count(s, r) <= |s.sent|
  {
    AllAre(s.readers[r].received[k], s.sent[k])
  }

  ghost predicate ReaderOk(s: State, r: nat)
    requires Shape(s) && r < |s.readers|
  {
    var me := s.readers[r];
    && Count(s, r) <= |s.sent| <= Count(s, r) + Chunks(s)
    && me.idx == Slot(Chunks(s), Count(s, r))
    && (forall k: nat :: k < Count(s, r) ==> Faithful(s, r, k))
    && (me.pc.Flagged? && !me.pc.read ==> FlagIs(s, me.idx, r, false))
    && (me.pc.Reading? ==> Count(s, r) < |s.sent| && AllAre(me.pc.views, s.sent[Count(s, r)]))
  }

  ghost predicate Inv(s: State) {
    && Shape(s) && Window(s) && Blanks(s) && Head(s) && WriterOk(s)
    && (forall r :: 0 <= r < |s.readers| ==> ReaderOk(s, r))
  }

  // ----- what a step leaves alone

  /** Nothing but block `b` and its flags, the program counters and the views have changed. */
  ghost predicate OnlyBlock(s: State, s': State, b: nat)
    requires Shape(s) && Shape(s')
  {
    && |s'.blocks| == |s.blocks| && |s'.readers| == |s.readers| && s'.sent == s.sent
    && (forall j :: 0 <= j < |s.blocks| && j != b ==> s'.blocks[j] == s.blocks[j] && s'.meta[j] == s.meta[j])
    && (forall r :: 0 <= r < |s.readers| ==> s'.readers[r].received == s.readers[r].received)
  }

  lemma LiveElsewhere(s: State, s': State, b: nat, k: nat)
    requires Shape(s) && Shape(s') && OnlyBlock(s, s', b) && Live(s, k) && Slot(Chunks(s), k) != b
    ensures Live(s', k)
  {
    forall r | 0 <= r < |s.readers| ensures FlagTells(s', k, r) {
      assert FlagTells(s, k, r);
    }
  }

  lemma BlankElsewhere(s: State, s': State, b: nat, j: nat)
    requires Shape(s) && Shape(s') && OnlyBlock(s, s', b) && j < Chunks(s) && Blank(s, j) && j != b
    ensures Blank(s', j)
  {
    forall r | 0 <= r < |s.readers| ensures FlagIs(s', j, r, false) {
      assert FlagIs(s, j, r, false);
    }
  }

  /** A change to the writer's block touches no message of the window and no blank block. */
  lemma WindowKept(s: State, s': State)
    requires Shape(s) && Shape(s') && WriterOk(s) && OnlyBlock(s, s', s.writer.idx) && Window(s) && Blanks(s)
    ensures Window(s') && Blanks(s')
  {
    var c, b := Chunks(s), s.writer.idx;
    forall k: nat | k < |s'.sent| < k + c ensures Live(s', k) {
      SlotApart(c, k, |s.sent|);
      LiveElsewhere(s, s', b, k);
    }
    forall j: nat | |s'.sent| < j < c ensures Blank(s', j) {
      assert Blank(s, j);
      BlankElsewhere(s, s', b, j);
    }
  }

  /** A reader is untouched by the writer, unless the writer raises its flag or publishes. */
  lemma ReadersKept(s: State, s': State)
    requires Shape(s) && Shape(s') && s'.readers == s.readers && s'.sent == s.sent && Chunks(s') == Chunks(s)
    requires forall r :: 0 <= r < |s.readers| ==> ReaderOk(s, r)
    requires forall b, r :: FlagIs(s, b, r, false) ==> FlagIs(s', b, r, false)
    ensures forall r :: 0 <= r < |s.readers| ==> ReaderOk(s', r)
  {
    forall r | 0 <= r < |s.readers| ensures ReaderOk(s', r) {
      assert ReaderOk(s, r);
      forall k: nat | k < Count(s, r) ensures Faithful(s', r, k) {
        assert Faithful(s, r, k);
      }
    }
  }

  // ----- the writer's steps

  lemma PcKeeps(s: State, pc: WriterPc)
    requires Inv(s) && Shape(At(s, pc)) && WriterOk(At(s, pc))
    requires forall r :: Cleared(pc, r) <==> Cleared(s.writer.pc, r)
    ensures Inv(At(s, pc))
  {
    var s' := At(s, pc);
    WindowKept(s, s');
    ReadersKept(s, s');
    HeadKept(s, s');
  }

  lemma HeadKept(s: State, s': State)
    requires Shape(s) && Shape(s') && Head(s) && s' == At(s, s'.writer.pc)
    requires forall r :: Cleared(s'.writer.pc, r) <==> Cleared(s.writer.pc, r)
    ensures Head(s')
  {
    if s.meta[s.writer.idx].written {
      LiveSame(s, s', |s.sent| - Chunks(s));
    } else {
      forall r | 0 <= r < |s.readers| ensures OpenFor(s', r) {
        assert OpenFor(s, r);
        assert Cleared(s'.writer.pc, r) <==> Cleared(s.writer.pc, r);
      }
    }
  }

  lemma LiveSame(s: State, s': State, k: nat)
    requires Shape(s) && Shape(s') && Live(s, k)
    requires s'.blocks == s.blocks && s'.meta == s.meta && s'.sent == s.sent && |s'.readers| == |s.readers|
    requires forall r :: 0 <= r < |s.readers| ==> s'.readers[r].received == s.readers[r].received
    ensures Live(s', k)
  {
    forall r | 0 <= r < |s.readers| ensures FlagTells(s', k, r) {
      assert FlagTells(s, k, r);
    }
  }

  lemma ScanKeeps(s: State, a: Step)
    requires Inv(s) && Enabled(s, a) && (a.BeginScan? || a.ScanFlag? || a.ScanWritten? || a.EndFill? || a.AbortFill?)
    ensures Inv(Next(s, a))
  {
    ShapeKept(s, a);
    var s', b := Next(s, a), s.writer.idx;
    forall r: nat | (s.writer.pc.Scan? && s.writer.pc.count == s.writer.pc.next && r < s.writer.pc.next)
      ensures FlagIs(s', b, r, true)
    {
      assert FlagIs(s, b, r, true);
    }
    PcKeeps(s, s'.writer.pc);
  }

  /** Once its check has passed, the writer's block has been read by all. */
  lemma CheckedIsPassed(s: State, r: nat)
    requires Inv(s) && s.writer.pc.Clear? && s.meta[s.writer.idx].written && r < |s.readers|
    ensures Passed(s, r) && FlagIs(s, s.writer.idx, r, true)
  {
    assert FlagIs(s, s.writer.idx, r, true) && FlagTells(s, |s.sent| - Chunks(s), r);
  }

  lemma ClearKeeps(s: State)
    requires Inv(s) && Enabled(s, ClearWritten)
    ensures Inv(Next(s, ClearWritten))
  {
    var s' := Next(s, ClearWritten);
    ShapeKept(s, ClearWritten);
    WindowKept(s, s');
    ReadersKept(s, s');
    forall r | 0 <= r < |s.readers| ensures OpenFor(s', r) {
      if s.meta[s.writer.idx].written {
        CheckedIsPassed(s, r);
      } else {
        assert OpenFor(s, r);
      }
    }
  }

  lemma ScribbleKeeps(s: State, block: Block)
    requires Inv(s) && Enabled(s, Scribble(block))
    ensures Inv(Next(s, Scribble(block)))
  {
    var s' := Next(s, Scribble(block));
    ShapeKept(s, Scribble(block));
    WindowKept(s, s');
    ReadersKept(s, s');
    forall r | 0 <= r < |s.readers| ensures OpenFor(s', r) {
      assert OpenFor(s, r);
    }
  }

  lemma ResetKeeps(s: State)
    requires Inv(s) && Enabled(s, ResetFlag)
    ensures Inv(Next(s, ResetFlag))
  {
    var s' := Next(s, ResetFlag);
    ShapeKept(s, ResetFlag);
    WindowKept(s, s');
    ReadersKept(s, s');
    forall r | 0 <= r < |s.readers| ensures OpenFor(s', r) {
      assert OpenFor(s, r);
    }
  }

  // ----- publishing

  /** A message in another block stays as it is. */
  lemma LiveAfterPublish(s: State, k: nat)
    requires Inv(s) && Enabled(s, SetWritten) && k < |s.sent| < k + Chunks(s)
    ensures Shape(Next(s, SetWritten)) && Live(Next(s, SetWritten), k)
  {
    var s' := Next(s, SetWritten);
    ShapeKept(s, SetWritten);
    assert Live(s, k);
    SlotApart(Chunks(s), k, |s.sent|);
    forall r | 0 <= r < |s.readers| ensures FlagTells(s', k, r) {
      assert FlagTells(s, k, r);
    }
  }

  lemma NewIsLive(s: State)
    requires Inv(s) && Enabled(s, SetWritten)
    ensures Shape(Next(s, SetWritten)) && Live(Next(s, SetWritten), |s.sent|)
  {
    var s' := Next(s, SetWritten);
    ShapeKept(s, SetWritten);
    forall r | 0 <= r < |s.readers| ensures FlagTells(s', |s.sent|, r) {
      assert OpenFor(s, r) && ReaderOk(s, r);
    }
  }

  lemma BlankAfterPublish(s: State, b: nat)
    requires Inv(s) && Enabled(s, SetWritten) && |s.sent| < b < Chunks(s)
    ensures Shape(Next(s, SetWritten)) && Blank(Next(s, SetWritten), b)
  {
    var s' := Next(s, SetWritten);
    ShapeKept(s, SetWritten);
    assert Blank(s, b);
    forall r | 0 <= r < |s.readers| ensures FlagIs(s', b, r, false) {
      assert FlagIs(s, b, r, false);
    }
  }

  lemma HeadAfterPublish(s: State)
    requires Inv(s) && Enabled(s, SetWritten)
    ensures Shape(Next(s, SetWritten)) && Head(Next(s, SetWritten)) && WriterOk(Next(s, SetWritten))
  {
    var s', c, h := Next(s, SetWritten), Chunks(s), |s.sent|;
    ShapeKept(s, SetWritten);
    SlotNext(c, h);
    if h + 1 < c {
      BlankAfterPublish(s, h + 1);
      forall r | 0 <= r < |s.readers| ensures OpenFor(s', r) {
        assert FlagIs(s', h + 1, r, false);
      }
    } else if c == 1 {
      NewIsLive(s);
    } else {
      LiveAfterPublish(s, h + 1 - c);
    }
  }

  lemma ReadersAfterPublish(s: State, r: nat)
    requires Inv(s) && Enabled(s, SetWritten) && r < |s.readers|
    ensures Shape(Next(s, SetWritten)) && ReaderOk(Next(s, SetWritten), r)
  {
    var s' := Next(s, SetWritten);
    ShapeKept(s, SetWritten);
    assert ReaderOk(s, r) && OpenFor(s, r);
    forall k: nat | k < Count(s, r) ensures Faithful(s', r, k) {
      assert Faithful(s, r, k);
    }
  }

  lemma PublishKeeps(s: State)
    requires Inv(s) && Enabled(s, SetWritten)
    ensures Inv(Next(s, SetWritten))
  {
    var s' := Next(s, SetWritten);
    ShapeKept(s, SetWritten);
    HeadAfterPublish(s);
    forall k: nat | k < |s'.sent| < k + Chunks(s') ensures Live(s', k) {
      if k == |s.sent| {
        NewIsLive(s);
      } else {
        LiveAfterPublish(s, k);
      }
    }
    forall b: nat | |s'.sent| < b < Chunks(s') ensures Blank(s', b) {
      BlankAfterPublish(s, b);
    }
    forall r | 0 <= r < |s'.readers| ensures ReaderOk(s', r) {
      ReadersAfterPublish(s, r);
    }
  }

  // ----- the readers' steps

  /** A message that a reader has not finished is in its block, whole. */
  lemma UnreadIsLive(s: State, r: nat)
    requires Inv(s) && r < |s.readers| && Count(s, r) < |s.sent|
    ensures Live(s, Count(s, r))
  {
    var c, k := Chunks(s), Count(s, r);
    assert ReaderOk(s, r);
    if |s.sent| == k + c {
      assert Slot(c, |s.sent|) == Slot(c, k);
      assert !s.meta[s.writer.idx].written ==> OpenFor(s, r);
    }
  }

  /** The reader's check: its flag is down and the block is marked written exactly when there is a
      message it has not read. */
  lemma ReadableIff(s: State, r: nat)
    requires Inv(s) && r < |s.readers|
    ensures var b := s.readers[r].idx;
            FlagIs(s, b, r, false) && s.meta[b].written <==> Count(s, r) < |s.sent|
  {
    var b, k := s.readers[r].idx, Count(s, r);
    assert ReaderOk(s, r);
    if k < |s.sent| {
      UnreadIsLive(s, r);
      assert FlagTells(s, k, r);
    } else if s.meta[b].written {
      assert FlagTells(s, |s.sent| - Chunks(s), r);
    }
  }

  /** A reader that only moves on leaves everything else as it was. */
  lemma ReaderPcKeeps(s: State, r: nat, pc: ReaderPc)
    requires Inv(s) && r < |s.readers| && Shape(ReaderAt(s, r, pc)) && ReaderOk(ReaderAt(s, r, pc), r)
    ensures Inv(ReaderAt(s, r, pc))
  {
    var s' := ReaderAt(s, r, pc);
    WindowKept(s, s');
    forall i | FlagIs(s, s.writer.idx, i, true) ensures FlagIs(s', s.writer.idx, i, true) {
    }
    if s.meta[s.writer.idx].written {
      LiveSame(s, s', |s.sent| - Chunks(s));
    } else {
      forall i | 0 <= i < |s.readers| ensures OpenFor(s', i) {
        assert OpenFor(s, i);
      }
    }
    forall i | 0 <= i < |s.readers| ensures ReaderOk(s', i) {
      OtherReaderKept(s, s', r, i);
    }
  }

  lemma OtherReaderKept(s: State, s': State, r: nat, i: nat)
    requires Shape(s) && Shape(s') && r < |s.readers| == |s'.readers| && i < |s.readers|
    requires Chunks(s') == Chunks(s) && s'.sent == s.sent && ReaderOk(s, i)
    requires i == r ==> ReaderOk(s', i)
    requires i != r ==> s'.readers[i] == s.readers[i] && forall b :: FlagIs(s, b, i, false) ==> FlagIs(s', b, i, false)
    ensures ReaderOk(s', i)
  {
    if i != r {
      forall k: nat | k < Count(s, i) ensures Faithful(s', i, k) {
        assert Faithful(s, i, k);
      }
    }
  }

  lemma FaithfulKept(s: State, s': State, r: nat)
    requires Shape(s) && r < |s.readers| == |s'.readers| && ReaderOk(s, r)
    requires s'.sent == s.sent && s'.readers[r].received == s.readers[r].received
    ensures forall k: nat :: k < Count(s, r) ==> Faithful(s', r, k)
  {
    forall k: nat | k < Count(s, r) ensures Faithful(s', r, k) {
      assert Faithful(s, r, k);
    }
  }

  lemma PollKeeps(s: State, a: Step)
    requires Inv(s) && Enabled(s, a) && OfReader(a) && !a.Mark?
    ensures Inv(Next(s, a))
  {
    var r, s' := a.reader, Next(s, a);
    ShapeKept(s, a);
    ReadableIff(s, r);
    assert ReaderOk(s, r);
    FaithfulKept(s, s', r);
    if a.View? {
      UnreadIsLive(s, r);
    }
    ReaderPcKeeps(s, r, s'.readers[r].pc);
  }

  lemma LiveAfterMark(s: State, r: nat, k: nat)
    requires Inv(s) && Enabled(s, Mark(r)) && Live(s, k) && |s.sent| <= k + Chunks(s)
    ensures Shape(Next(s, Mark(r))) && Live(Next(s, Mark(r)), k)
  {
    var s', c, m := Next(s, Mark(r)), Chunks(s), Count(s, r);
    ShapeKept(s, Mark(r));
    assert ReaderOk(s, r);
    if k < m {
      SlotApart(c, k, m);
    } else if m < k {
      SlotApart(c, m, k);
    }
    forall i | 0 <= i < |s.readers| ensures FlagTells(s', k, i) {
      assert FlagTells(s, k, i);
    }
  }

  lemma OpenAfterMark(s: State, r: nat, i: nat)
    requires Inv(s) && Enabled(s, Mark(r)) && i < |s.readers| && !s.meta[s.writer.idx].written
    ensures s.readers[r].idx != s.writer.idx && OpenFor(Next(s, Mark(r)), i)
  {
    assert ReaderOk(s, r) && OpenFor(s, r) && OpenFor(s, i);
    SlotApart(Chunks(s), Count(s, r), |s.sent|);
  }

  lemma HeadAfterMark(s: State, r: nat)
    requires Inv(s) && Enabled(s, Mark(r))
    ensures Shape(Next(s, Mark(r))) && Head(Next(s, Mark(r)))
  {
    var s', b := Next(s, Mark(r)), s.writer.idx;
    ShapeKept(s, Mark(r));
    if s.meta[b].written {
      LiveAfterMark(s, r, |s.sent| - Chunks(s));
    } else {
      forall i | 0 <= i < |s.readers| ensures OpenFor(s', i) {
        OpenAfterMark(s, r, i);
      }
      OpenAfterMark(s, r, r);
    }
  }

  lemma WriterAfterMark(s: State, r: nat)
    requires Inv(s) && Enabled(s, Mark(r))
    ensures Shape(Next(s, Mark(r))) && WriterOk(Next(s, Mark(r)))
  {
    var s', b := Next(s, Mark(r)), s.writer.idx;
    ShapeKept(s, Mark(r));
    forall i | FlagIs(s, b, i, true) ensures FlagIs(s', b, i, true) {
    }
    if !s.meta[b].written {
      OpenAfterMark(s, r, r);
    }
    assert s'.meta[b].written == s.meta[b].written;
  }

  lemma MarkerKept(s: State, r: nat)
    requires Inv(s) && Enabled(s, Mark(r))
    ensures Shape(Next(s, Mark(r))) && ReaderOk(Next(s, Mark(r)), r)
  {
    var s', m := Next(s, Mark(r)), Count(s, r);
    ShapeKept(s, Mark(r));
    assert ReaderOk(s, r);
    SlotNext(Chunks(s), m);
    forall k: nat | k < m + 1 ensures Faithful(s', r, k) {
      if k < m {
        assert Faithful(s, r, k);
      }
    }
  }

  lemma MarkKeeps(s: State, r: nat)
    requires Inv(s) && Enabled(s, Mark(r))
    ensures Inv(Next(s, Mark(r)))
  {
    var s', c := Next(s, Mark(r)), Chunks(s);
    ShapeKept(s, Mark(r));
    HeadAfterMark(s, r);
    WriterAfterMark(s, r);
    MarkerKept(s, r);
    forall k: nat | k < |s'.sent| < k + c ensures Live(s', k) {
      LiveAfterMark(s, r, k);
    }
    forall b: nat | |s'.sent| < b < c ensures Blank(s', b) {
      BlankAfterMark(s, r, b);
    }
    forall i | 0 <= i < |s.readers| ensures ReaderOk(s', i) {
      OtherReaderKept(s, s', r, i);
    }
  }

  lemma BlankAfterMark(s: State, r: nat, b: nat)
    requires Inv(s) && Enabled(s, Mark(r)) && |s.sent| < b < Chunks(s)
    ensures Shape(Next(s, Mark(r))) && Blank(Next(s, Mark(r)), b)
  {
    var s' := Next(s, Mark(r));
    ShapeKept(s, Mark(r));
    assert Blank(s, b) && ReaderOk(s, r);
    forall i | 0 <= i < |s.readers| ensures FlagIs(s', b, i, false) {
      assert FlagIs(s, b, i, false);
    }
  }

  // ----- every interleaving

  lemma StepKeeps(s: State, a: Step)
    requires Inv(s) && Enabled(s, a)
    ensures Inv(Next(s, a))
  {
    match a
    case ClearWritten => ClearKeeps(s);
    case Scribble(block) => ScribbleKeeps(s, block);
    case ResetFlag => ResetKeeps(s);
    case SetWritten => PublishKeeps(s);
    case Mark(r) => MarkKeeps(s, r);
    case _ =>
      if OfReader(a) {
        PollKeeps(s, a);
      } else {
        ScanKeeps(s, a);
      }
  }

  lemma Starts(blocks: seq<Block>, readers: nat)
    requires blocks != []
    ensures Inv(Start(blocks, readers))
  {
  }

  lemma {:induction false} RunKeeps(s: State, steps: seq<Step>, s': State)
    requires Inv(s) && Reaches(s, steps, s')
    ensures Inv(s')
    decreases |steps|
  {
    if steps != [] {
      StepKeeps(s, steps[0]);
      RunKeeps(Next(s, steps[0]), steps[1..], s');
    }
  }

  /** In every interleaving each reader receives the messages in the order they were sent, each once
      and none skipped, and whatever it looked at while reading one was that message, whole. */
  lemma ReceivesInOrder(blocks: seq<Block>, readers: nat, steps: seq<Step>, s: State, r: nat, k: nat, i: nat)
    requires blocks != [] && Reaches(Start(blocks, readers), steps, s)
    requires r < |s.readers| && k < |s.readers[r].received| && i < |s.readers[r].received[k]|
    ensures k < |s.sent| && s.readers[r].received[k][i] == s.sent[k]
  {
    Starts(blocks, readers);
    RunKeeps(Start(blocks, readers), steps, s);
    assert ReaderOk(s, r) && Faithful(s, r, k);
  }

  /** While a reader is in a block, the block holds the message it is to read, whole: the writer can
      not have taken it. */
  lemma NoTornRead(blocks: seq<Block>, readers: nat, steps: seq<Step>, s: State, r: nat)
    requires blocks != [] && Reaches(Start(blocks, readers), steps, s)
    requires r < |s.readers| && s.readers[r].pc.Reading?
    ensures Shape(s) && Count(s, r) < |s.sent| && s.blocks[s.readers[r].idx] == s.sent[Count(s, r)]
    ensures s.writer.pc.Fill? || s.writer.pc.Reset? ==> s.writer.idx != s.readers[r].idx
  {
    Starts(blocks, readers);
    RunKeeps(Start(blocks, readers), steps, s);
    assert ReaderOk(s, r);
    UnreadIsLive(s, r);
  }

  /** The reader's check passes exactly when a message is unread, and the writer's, taken at once,
      exactly when all readers have finished the message a lap before. */
  lemma ChecksAreExact(blocks: seq<Block>, readers: nat, steps: seq<Step>, s: State)
    requires blocks != [] && Reaches(Start(blocks, readers), steps, s)
    ensures Shape(s)
    ensures forall r :: 0 <= r < |s.readers| ==>
              (FlagIs(s, s.readers[r].idx, r, false) && s.meta[s.readers[r].idx].written <==> Count(s, r) < |s.sent|)
    ensures (s.meta[s.writer.idx].written ==> forall r :: 0 <= r < |s.readers| ==> FlagIs(s, s.writer.idx, r, true))
            <==> forall r :: 0 <= r < |s.readers| ==> Passed(s, r)
  {
    Starts(blocks, readers);
    RunKeeps(Start(blocks, readers), steps, s);
    forall r | 0 <= r < |s.readers|
      ensures FlagIs(s, s.readers[r].idx, r, false) && s.meta[s.readers[r].idx].written <==> Count(s, r) < |s.sent|
    {
      ReadableIff(s, r);
    }
    forall r | 0 <= r < |s.readers|
      ensures (s.meta[s.writer.idx].written ==> FlagIs(s, s.writer.idx, r, true)) <==> Passed(s, r)
    {
      if s.meta[s.writer.idx].written {
        assert FlagTells(s, |s.sent| - Chunks(s), r);
      } else {
        assert OpenFor(s, r);
      }
    }
  }

  /** The ring never deadlocks: in every interleaving, at every point, the writer's check would pass or
      some reader's would. */
  lemma NoDeadlock(blocks: seq<Block>, readers: nat, steps: seq<Step>, s: State)
    requires blocks != [] && Reaches(Start(blocks, readers), steps, s)
    ensures Shape(s)
    ensures || (s.meta[s.writer.idx].written ==> forall r :: 0 <= r < |s.readers| ==> FlagIs(s, s.writer.idx, r, true))
            || (exists r :: 0 <= r < |s.readers|
                            && FlagIs(s, s.readers[r].idx, r, false) && s.meta[s.readers[r].idx].written)
  {
    ChecksAreExact(blocks, readers, steps, s);
    if r :| 0 <= r < |s.readers| && !Passed(s, r) {
      assert Count(s, r) < |s.sent|;
    }
  }
}
