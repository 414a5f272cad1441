/** Progress on the broadcast ring: a check that would pass does let its side proceed, and from wherever
    a run has got to, every further message can be sent to every reader. */
module ShmProgress {
  import opened ShmRing

  ghost predicate AllPassed(s: State) {
    forall r :: 0 <= r < |s.readers| ==> Passed(s, r)
  }

  /** Reachable from the state the ring is set up in. */
  ghost predicate Reachable(s: State) {
    exists blocks, readers, steps :: blocks != [] && Reaches(Start(blocks, readers), steps, s)
  }

  lemma ReachableKeeps(s: State)
    requires Reachable(s)
    ensures Inv(s)
  {
    var blocks, readers, steps :| blocks != [] && Reaches(Start(blocks, readers), steps, s);
    Starts(blocks, readers);
    RunKeeps(Start(blocks, readers), steps, s);
  }

  // ----- the writer

  /** Everyone has read the block and the writer has counted so. */
  ghost predicate Through(s: State) {
    var pc := s.writer.pc;
    && Inv(s) && AllPassed(s)
    && (pc.WIdle? || pc.Clear? || (pc.Scan? && (s.meta[s.writer.idx].written ==> pc.count == pc.next)))
  }

  lemma PassedIsFlagged(s: State, r: nat)
    requires Inv(s) && r < |s.readers| && s.meta[s.writer.idx].written
    ensures FlagIs(s, s.writer.idx, r, Passed(s, r))
  {
    assert FlagTells(s, |s.sent| - Chunks(s), r);
  }

  lemma PassedStays(s: State, a: Step)
    requires Inv(s) && Enabled(s, a) && !a.SetWritten? && AllPassed(s)
    ensures AllPassed(Next(s, a))
  {
    forall r | 0 <= r < |s.readers| ensures Passed(Next(s, a), r) {
      assert Passed(s, r);
    }
  }

  /** Until the writer takes the block, no step of anyone disturbs that. */
  lemma ThroughKept(s: State, a: Step)
    requires Through(s) && Enabled(s, a) && !a.ClearWritten?
    ensures Through(Next(s, a))
    ensures a.ScanWritten? || s.writer.pc.Clear? ==> Next(s, a).writer.pc.Clear?
  {
    StepKeeps(s, a);
    PassedStays(s, a);
    if a.ScanFlag? && s.meta[s.writer.idx].written {
      PassedIsFlagged(s, s.writer.pc.next);
    }
  }

  lemma {:induction false} ThroughRun(s: State, steps: seq<Step>, s': State)
    requires Through(s) && Reaches(s, steps, s') && ClearWritten !in steps
    ensures Through(s')
    ensures ScanWritten in steps || s.writer.pc.Clear? ==> s'.writer.pc.Clear?
    decreases |steps|
  {
    if steps != [] {
      ThroughKept(s, steps[0]);
      ThroughRun(Next(s, steps[0]), steps[1..], s');
    }
  }

  /** If all readers have passed when the writer starts to look, its check succeeds, whatever the readers
      do meanwhile; so a check that fails was begun with a reader behind. */
  lemma ScanSucceeds(s: State, steps: seq<Step>, s': State)
    requires Reachable(s) && s.writer.pc.WIdle? && Reaches(s, steps, s')
    requires ScanWritten in steps && ClearWritten !in steps
    ensures AllPassed(s) ==> s'.writer.pc.Clear?
    ensures s'.writer.pc.WIdle? ==> exists r :: 0 <= r < |s.readers| && !Passed(s, r)
  {
    ReachableKeeps(s);
    if AllPassed(s) {
      ThroughRun(s, steps, s');
    }
  }

  /** A check that succeeded leaves no reader behind. */
  lemma ClearIsPassed(s: State)
    requires Reachable(s) && (s.writer.pc.Clear? || s.writer.pc.Fill? || s.writer.pc.Reset?)
    ensures AllPassed(s)
  {
    ReachableKeeps(s);
    ClearPassed(s);
  }

  lemma ClearPassed(s: State)
    requires Inv(s) && (s.writer.pc.Clear? || s.writer.pc.Fill? || s.writer.pc.Reset?)
    ensures AllPassed(s)
  {
    forall r | 0 <= r < |s.readers| ensures Passed(s, r) {
      if s.meta[s.writer.idx].written {
        CheckedIsPassed(s, r);
      } else {
        assert OpenFor(s, r);
      }
    }
  }

  // ----- the readers

  /** Reader `r` has a message to read and has not been told otherwise. */
  ghost predicate Due(s: State, r: nat) {
    Inv(s) && r < |s.readers| && Count(s, r) < |s.sent| && s.readers[r].pc != Flagged(true)
  }

  lemma DueKept(s: State, a: Step, r: nat)
    requires Due(s, r) && Enabled(s, a) && a != Mark(r)
    ensures Due(Next(s, a), r)
    ensures a != AbortRead(r) && (a == ReadWritten(r) || s.readers[r].pc.Reading?) ==> Next(s, a).readers[r].pc.Reading?
  {
    StepKeeps(s, a);
    ReadableIff(s, r);
  }

  lemma {:induction false} DueRun(s: State, r: nat, steps: seq<Step>, s': State)
    requires Due(s, r) && Reaches(s, steps, s') && Mark(r) !in steps && AbortRead(r) !in steps
    ensures Due(s', r)
    ensures ReadWritten(r) in steps || s.readers[r].pc.Reading? ==> s'.readers[r].pc.Reading?
    decreases |steps|
  {
    if steps != [] {
      DueKept(s, steps[0], r);
      DueRun(Next(s, steps[0]), r, steps[1..], s');
    }
  }

  /** If a message is unread when a reader starts to look, its check succeeds, whatever the others do
      meanwhile. */
  lemma ReadSucceeds(s: State, r: nat, steps: seq<Step>, s': State)
    requires Reachable(s) && r < |s.readers| && s.readers[r].pc.RIdle? && Count(s, r) < |s.sent|
    requires Reaches(s, steps, s') && ReadWritten(r) in steps && Mark(r) !in steps && AbortRead(r) !in steps
    ensures r < |s'.readers| && s'.readers[r].pc.Reading?
  {
    ReachableKeeps(s);
    DueRun(s, r, steps, s');
  }

  // ----- runs put together

  ghost predicate Can(s: State, s': State) {
    exists steps :: Reaches(s, steps, s')
  }

  lemma {:induction false} ReachesAppend(s: State, steps: seq<Step>, t: State, more: seq<Step>, u: State)
    requires Reaches(s, steps, t) && Reaches(t, more, u)
    ensures Reaches(s, steps + more, u)
    decreases |steps|
  {
    if steps == [] {
      assert steps + more == more;
    } else {
      ReachesAppend(Next(s, steps[0]), steps[1..], t, more, u);
      assert (steps + more)[1..] == steps[1..] + more;
    }
  }

  lemma CanStay(s: State)
    ensures Can(s, s)
  {
    assert Reaches(s, [], s);
  }

  lemma CanThen(s: State, t: State, u: State)
    requires Can(s, t) && Can(t, u)
    ensures Can(s, u)
  {
    var steps :| Reaches(s, steps, t);
    var more :| Reaches(t, more, u);
    ReachesAppend(s, steps, t, more, u);
  }

  lemma CanStep(s: State, a: Step)
    requires Inv(s) && Enabled(s, a)
    ensures Can(s, Next(s, a)) && Inv(Next(s, a))
  {
    StepKeeps(s, a);
    assert Reaches(Next(s, a), [], Next(s, a));
    assert [a][1..] == [];
    assert Reaches(s, [a], Next(s, a));
  }

  lemma CanThenStep(s: State, t: State, a: Step)
    requires Can(s, t) && Inv(t) && Enabled(t, a)
    ensures Can(s, Next(t, a)) && Inv(Next(t, a))
  {
    CanStep(t, a);
    CanThen(s, t, Next(t, a));
  }

  // ----- the writer on its own

  /** Only the writer has moved, and what it has not written is as it was. */
  ghost predicate Alone(s: State, t: State) {
    Can(s, t) && Inv(t) && t.readers == s.readers && |t.blocks| == |s.blocks|
  }

  lemma {:induction false} ScanAll(s: State) returns (t: State)
    requires Inv(s) && s.writer.pc.Scan?
    ensures Alone(s, t) && t.sent == s.sent && (t.writer.pc.Clear? || t.writer.pc.WIdle?)
    ensures Through(s) ==> t.writer.pc.Clear?
    ensures AllPassed(s) == AllPassed(t)
    decreases |s.readers| - s.writer.pc.next
  {
    var a := if s.writer.pc.next < |s.readers| then ScanFlag else ScanWritten;
    CanStep(s, a);
    if Through(s) {
      ThroughKept(s, a);
    }
    t := Next(s, a);
    SamePassed(s, t);
    if a.ScanFlag? {
      var u := ScanAll(t);
      CanThen(s, t, u);
      t := u;
    }
  }

  lemma SamePassed(s: State, t: State)
    requires t.readers == s.readers && t.sent == s.sent && |t.blocks| == |s.blocks|
    ensures AllPassed(s) == AllPassed(t)
  {
    forall r | 0 <= r < |s.readers| ensures Passed(s, r) == Passed(t, r) {
    }
  }

  /** Looking on its own, the writer may take the block exactly if all readers have passed. */
  lemma ScanAloneIff(s: State) returns (t: State)
    requires Reachable(s) && s.writer.pc.WIdle?
    ensures Can(s, t) && t.readers == s.readers && t.sent == s.sent
    ensures if AllPassed(s) then t.writer.pc.Clear? else t.writer.pc.WIdle?
  {
    ReachableKeeps(s);
    t := ScanAlone(s);
  }

  lemma ScanAlone(s: State) returns (t: State)
    requires Inv(s) && s.writer.pc.WIdle?
    ensures Alone(s, t) && t.sent == s.sent
    ensures if AllPassed(s) then t.writer.pc.Clear? else t.writer.pc.WIdle?
  {
    CanStep(s, BeginScan);
    var u := Next(s, BeginScan);
    SamePassed(s, u);
    t := ScanAll(u);
    CanThen(s, u, t);
    if t.writer.pc.Clear? {
      ClearPassed(t);
    }
  }

  lemma {:induction false} ResetAll(s: State) returns (t: State)
    requires Inv(s) && s.writer.pc.Reset?
    ensures Alone(s, t) && t.writer.pc.WIdle? && t.sent == s.sent + [s.blocks[s.writer.idx]]
    decreases |s.readers| - s.writer.pc.next
  {
    if s.writer.pc.next < |s.readers| {
      CanStep(s, ResetFlag);
      var u := Next(s, ResetFlag);
      t := ResetAll(u);
      CanThen(s, u, t);
    } else {
      CanStep(s, SetWritten);
      t := Next(s, SetWritten);
    }
  }

  /** With its check passed, the writer sends the block it wants. */
  lemma SendFrom(s: State, block: Block) returns (t: State)
    requires Inv(s) && s.writer.pc.Clear?
    ensures Alone(s, t) && t.writer.pc.WIdle? && t.sent == s.sent + [block]
  {
    CanStep(s, ClearWritten);
    var filling := Next(s, ClearWritten);
    CanThenStep(s, filling, Scribble(block));
    var filled := Next(filling, Scribble(block));
    CanThenStep(s, filled, EndFill);
    var ended := Next(filled, EndFill);
    t := ResetAll(ended);
    CanThen(s, ended, t);
  }

  lemma Send(s: State, block: Block) returns (t: State)
    requires Inv(s) && s.writer.pc.WIdle? && AllPassed(s)
    ensures Alone(s, t) && t.writer.pc.WIdle? && t.sent == s.sent + [block]
  {
    var u := ScanAlone(s);
    t := SendFrom(u, block);
    CanThen(s, u, t);
  }

  /** Wherever it is, the writer can get back to rest; a block it is publishing is sent. */
  lemma Rest(s: State) returns (t: State)
    requires Inv(s)
    ensures Alone(s, t) && t.writer.pc.WIdle?
    ensures t.sent == s.sent + if s.writer.pc.Reset? then [s.blocks[s.writer.idx]] else []
  {
    t := s;
    CanStay(s);
    if s.writer.pc.Reset? {
      t := ResetAll(s);
    }
    if t.writer.pc.Scan? {
      t := ScanAll(s);
    }
    if t.writer.pc.Clear? {
      CanThenStep(s, t, ClearWritten);
      t := Next(t, ClearWritten);
    }
    if t.writer.pc.Fill? {
      CanThenStep(s, t, AbortFill);
      t := Next(t, AbortFill);
    }
  }

  // ----- a reader on its own

  /** Only reader `r` has moved. */
  ghost predicate AloneReader(s: State, t: State, r: nat) {
    && Can(s, t) && Inv(t) && t.sent == s.sent && t.writer == s.writer
    && |t.readers| == |s.readers| && |t.blocks| == |s.blocks|
    && forall i :: 0 <= i < |s.readers| && i != r ==> t.readers[i] == s.readers[i]
  }

  lemma AloneReaderThen(s: State, t: State, u: State, r: nat)
    requires AloneReader(s, t, r) && AloneReader(t, u, r)
    ensures AloneReader(s, u, r)
  {
    CanThen(s, t, u);
  }

  lemma ReaderStep(s: State, a: Step) returns (t: State)
    requires Inv(s) && Enabled(s, a) && OfReader(a)
    ensures t == Next(s, a) && AloneReader(s, t, a.reader)
  {
    CanStep(s, a);
    t := Next(s, a);
  }

  /** Looking on its own, a reader finds a message exactly if one is unread. */
  lemma LookIff(s: State, r: nat) returns (t: State)
    requires Reachable(s) && r < |s.readers| && s.readers[r].pc.RIdle?
    ensures Shape(s) && Enabled(s, ReadFlag(r)) && Shape(Next(s, ReadFlag(r)))
    ensures Enabled(Next(s, ReadFlag(r)), ReadWritten(r)) && t == Next(Next(s, ReadFlag(r)), ReadWritten(r))
    ensures |t.readers| == |s.readers| && t.readers[r].pc == if Count(s, r) < |s.sent| then Reading([]) else RIdle
  {
    ReachableKeeps(s);
    ReadableIff(s, r);
    t := Look(s, r);
  }

  lemma Look(s: State, r: nat) returns (t: State)
    requires Inv(s) && r < |s.readers| && s.readers[r].pc.RIdle?
    ensures Enabled(s, ReadFlag(r)) && Shape(Next(s, ReadFlag(r)))
    ensures Enabled(Next(s, ReadFlag(r)), ReadWritten(r)) && t == Next(Next(s, ReadFlag(r)), ReadWritten(r))
    ensures AloneReader(s, t, r) && t.readers[r].received == s.readers[r].received
    ensures t.readers[r].pc == if Count(s, r) < |s.sent| then Reading([]) else RIdle
  {
    ReadableIff(s, r);
    var u := ReaderStep(s, ReadFlag(r));
    ReadableIff(u, r);
    t := ReaderStep(u, ReadWritten(r));
    AloneReaderThen(s, u, t, r);
  }

  /** A reader with a message to read reads it. */
  lemma ReadOne(s: State, r: nat) returns (t: State)
    requires Inv(s) && r < |s.readers| && s.readers[r].pc.RIdle? && Count(s, r) < |s.sent|
    ensures AloneReader(s, t, r) && t.readers[r].pc.RIdle?
    ensures t.readers[r].received == s.readers[r].received + [[s.sent[Count(s, r)]]]
  {
    var u := Look(s, r);
    var v := ReaderStep(u, View(r));
    AloneReaderThen(s, u, v, r);
    t := ReaderStep(v, Mark(r));
    AloneReaderThen(s, v, t, r);
    assert ReaderOk(v, r) && v.readers[r].pc.views == [v.readers[r].pc.views[0]];
  }

  /** Reader `r` is at rest and has seen every message, the ones from `from` on once each. */
  predicate CaughtUp(s: State, r: nat, from: nat)
    requires r < |s.readers|
  {
    && s.readers[r].pc.RIdle? && Count(s, r) == |s.sent|
    && forall k :: from <= k < |s.sent| ==> s.readers[r].received[k] == [s.sent[k]]
  }

  /** Messages from `from` on that reader `r` has seen, it has seen once each. */
  predicate SeenOnce(s: State, r: nat, from: nat)
    requires r < |s.readers|
  {
    forall k :: from <= k < Count(s, r) && k < |s.sent| ==> s.readers[r].received[k] == [s.sent[k]]
  }

  lemma {:induction false} CatchUp(s: State, r: nat, from: nat) returns (t: State)
    requires Inv(s) && r < |s.readers| && s.readers[r].pc.RIdle? && SeenOnce(s, r, from)
    ensures AloneReader(s, t, r) && CaughtUp(t, r, from)
    decreases |s.sent| - Count(s, r)
  {
    assert ReaderOk(s, r);
    if Count(s, r) == |s.sent| {
      CanStay(s);
      t := s;
    } else {
      var u := ReadOne(s, r);
      t := CatchUp(u, r, from);
      AloneReaderThen(s, u, t, r);
    }
  }

  /** Wherever it is, a reader can get back to rest; a message it is reading is finished. */
  lemma RestReader(s: State, r: nat) returns (t: State)
    requires Inv(s) && r < |s.readers|
    ensures AloneReader(s, t, r) && t.readers[r].pc.RIdle? && Count(t, r) <= |s.sent|
    ensures s.readers[r].pc.RIdle? ==> t == s
  {
    t := s;
    CanStay(s);
    if s.readers[r].pc.Flagged? {
      t := ReaderStep(s, ReadWritten(r));
    }
    if t.readers[r].pc.Reading? {
      var u := ReaderStep(t, Mark(r));
      AloneReaderThen(s, t, u, r);
      t := u;
    }
    assert ReaderOk(t, r);
  }

  // ----- everyone

  /** At rest, with everything read. */
  ghost predicate Quiet(s: State, from: nat) {
    Inv(s) && s.writer.pc.WIdle? && forall r :: 0 <= r < |s.readers| ==> CaughtUp(s, r, from)
  }

  /** The readers from `r` on catch up, one after the other. */
  lemma {:induction false} AllCatchUp(s: State, r: nat, from: nat) returns (t: State)
    requires Inv(s) && s.writer.pc.WIdle? && r <= |s.readers|
    requires forall i :: 0 <= i < r ==> CaughtUp(s, i, from)
    requires forall i :: r <= i < |s.readers| ==>
               (s.readers[i].pc.RIdle? && SeenOnce(s, i, from)) || |s.sent| <= from
    ensures Can(s, t) && Quiet(t, from) && t.sent == s.sent
    ensures |t.readers| == |s.readers| && |t.blocks| == |s.blocks|
    decreases |s.readers| - r
  {
    if r == |s.readers| {
      CanStay(s);
      t := s;
    } else {
      var u := RestReader(s, r);
      var v := CatchUp(u, r, from);
      AloneReaderThen(s, u, v, r);
      CaughtUpBefore(s, v, r, from);
      t := AllCatchUp(v, r + 1, from);
      CanThen(s, v, t);
    }
  }

  lemma CaughtUpBefore(s: State, t: State, r: nat, from: nat)
    requires r < |s.readers| && AloneReader(s, t, r) && CaughtUp(t, r, from)
    requires forall i :: 0 <= i < r ==> CaughtUp(s, i, from)
    ensures forall i :: 0 <= i < r + 1 ==> CaughtUp(t, i, from)
  {
    forall i | 0 <= i < r + 1 ensures CaughtUp(t, i, from) {
      assert i < r ==> CaughtUp(s, i, from);
    }
  }

  /** From rest, one more message goes to everyone. */
  lemma DeliverOne(s: State, from: nat, block: Block) returns (t: State)
    requires Quiet(s, from) && from <= |s.sent|
    ensures Can(s, t) && Quiet(t, from) && t.sent == s.sent + [block] && |t.readers| == |s.readers|
  {
    forall r | 0 <= r < |s.readers| ensures Passed(s, r) {
      assert CaughtUp(s, r, from);
    }
    var u := Send(s, block);
    forall r | 0 <= r < |s.readers| ensures u.readers[r].pc.RIdle? && SeenOnce(u, r, from) {
      assert CaughtUp(s, r, from);
    }
    t := AllCatchUp(u, 0, from);
    CanThen(s, u, t);
  }

  lemma {:induction false} DeliverAll(s: State, from: nat, messages: seq<Block>) returns (t: State)
    requires Quiet(s, from) && from <= |s.sent|
    ensures Can(s, t) && Quiet(t, from) && t.sent == s.sent + messages && |t.readers| == |s.readers|
    decreases |messages|
  {
    if messages == [] {
      CanStay(s);
      t := s;
    } else {
      var u := DeliverOne(s, from, messages[0]);
      t := DeliverAll(u, from, messages[1..]);
      CanThen(s, u, t);
      assert messages == [messages[0]] + messages[1..];
    }
  }

  /** The ring never gets stuck: from every reachable state, and for every further sequence of messages,
      there is a run that sends them, after a block that was just being published, and in which every
      reader receives all that was sent and sees each of these messages once. */
  lemma AlwaysDelivers(s: State, messages: seq<Block>) returns (t: State)
    requires Reachable(s)
    ensures Shape(s) && Can(s, t) && |t.readers| == |s.readers|
    ensures t.sent == s.sent + (if s.writer.pc.Reset? then [s.blocks[s.writer.idx]] else []) + messages
    ensures var from: nat := |t.sent| - |messages|;
            forall r :: 0 <= r < |t.readers| ==> CaughtUp(t, r, from)
  {
    ReachableKeeps(s);
    var u := Rest(s);
    var from := |u.sent|;
    var v := AllCatchUp(u, 0, from);
    CanThen(s, u, v);
    t := DeliverAll(v, from, messages);
    CanThen(s, v, t);
  }

  /** Each message, seen once. */
  function EachOnce(messages: seq<Block>): (r: seq<seq<Block>>)
    ensures |r| == |messages| && forall k :: 0 <= k < |r| ==> r[k] == [messages[k]]
  {
    seq(|messages|, k requires 0 <= k < |messages| => [messages[k]])
  }

  /** In particular every sequence of messages can be sent and received by everyone, from the start. */
  lemma EverySequence(blocks: seq<Block>, readers: nat, messages: seq<Block>) returns (t: State)
    requires blocks != []
    ensures Can(Start(blocks, readers), t) && t.sent == messages && |t.readers| == readers
    ensures forall r :: 0 <= r < readers ==> t.readers[r].received == EachOnce(messages)
  {
    var s := Start(blocks, readers);
    assert Reaches(s, [], s);
    t := AlwaysDelivers(s, messages);
    forall r | 0 <= r < readers ensures t.readers[r].received == EachOnce(messages) {
      assert CaughtUp(t, r, 0);
    }
  }
}
