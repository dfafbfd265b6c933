/** However TCP splits one reply, the C3 driver ends in the same state as after a single delivery. */
module C3Segmentation {
  import opened Bytes
  import opened Sequences
  import opened C3Frame
  import opened C3Messages
  import opened C3Connection
  import Text = C3Text
  import opened C3Accounting

  /** A family below the table query is waiting for bytes. */
  predicate OthersListen(slots: Slots) {
    slots.rtLog.pending || slots.control.pending || slots.getParam.pending || slots.setParam.pending ||
      slots.count.pending
  }

  /** Somebody would read what arrives. */
  predicate Listens(d: Driver) {
    d.handshake.attempt || d.slots.data.pending || OthersListen(d.slots)
  }

  /** A connection attempt whose socket is not open yet collects bytes without looking at them. */
  predicate Deaf(d: Driver) {
    d.handshake.attempt && d.handshake.step == NoHandshake
  }

  ghost predicate StepsLegal(slots: Slots) {
    forall f :: Get(slots, f).pending ==> Legal(f, Get(slots, f).step)
  }

  lemma InvStepsLegal(d: Driver)
    requires Inv(d)
    ensures StepsLegal(d.slots)
  {
    forall f | Get(d.slots, f).pending ensures Legal(f, Get(d.slots, f).step) {
      assert FamilyOk(Get(d.slots, f), d.log, NamesOf(d.memory), f);
    }
  }

  // ---- Incomplete frames ----

  lemma DataWaits(d: Driver)
    requires StepsLegal(d.slots) && d.slots.data.pending && !Complete(d.buffer)
    ensures DataRead(d) == Returned(d)
  {
    hide DecodeConfig, DecodeGetData, DecodeTransmit, DecodeReply, Complete;
    assert Legal(Data, Get(d.slots, Data).step);
    AllWaitTogether(d.buffer, !d.auth.sessionLess, d.memory.table.index, d.memory.table.fields);
  }

  lemma OthersWait(d: Driver)
    requires StepsLegal(d.slots) && !Complete(d.buffer + d.socket.unread)
    ensures OthersRead(d) == if OthersListen(d.slots) then ReadAll(d) else d
  {
    hide DecodeConfig, DecodeCount, DecodeReply, DecodeRtlogBinary, DecodeRtlogKeyValue, Text.DecodeGetParam, Complete;
    assert d.slots.rtLog.pending ==> Legal(RtLog, Get(d.slots, RtLog).step);
    assert d.slots.count.pending ==> Legal(Count, Get(d.slots, Count).step);
    AllWaitTogether(d.buffer + d.socket.unread, !d.auth.sessionLess, 0, []);
  }

  lemma HandshakeWaits(d: Driver)
    requires !Complete(d.buffer) || d.handshake.step == NoHandshake
    ensures HandshakeRead(d) == d
  {
    hide DecodeConnectSession, DecodeReply, Complete;
    AllWaitTogether(d.buffer, false, 0, []);
  }

  /** Until the frame is complete nothing happens but buffering. */
  lemma Waits(d: Driver, bytes: seq<byte>)
    requires StepsLegal(d.slots) && (!Complete(d.buffer + d.socket.unread + bytes) || Deaf(d))
    ensures OnReadyRead(d, bytes) == if Listens(d) then ReadAll(Arrive(d, bytes)) else Arrive(d, bytes)
  {
    hide HandshakeRead, DataRead, OthersRead, Complete;
    var arrived := Arrive(d, bytes);
    Associate(d.buffer, d.socket.unread, bytes);
    if d.handshake.attempt {
      HandshakeWaits(ReadAll(arrived));
    } else {
      OthersWait(arrived);
      if d.slots.data.pending {
        DataWaits(ReadAll(arrived));
      }
    }
  }

  // ---- Complete frames ----

  predicate Drained(d: Driver) {
    d.buffer == [] && d.socket.unread == []
  }

  lemma DataConfigDrains(d: Driver)
    requires Complete(d.buffer) && d.socket.unread == []
    ensures Drained(DataConfigRead(d).driver)
  {
    hide DecodeConfig, Complete, Set, GetDataPayload, EncodeFrame, FindTable;
    AllWaitTogether(d.buffer, !d.auth.sessionLess, 0, []);
  }

  lemma DataTableDrains(d: Driver)
    requires Complete(d.buffer) && d.socket.unread == []
    ensures Drained(DataTableRead(d).driver)
  {
    hide DecodeGetData, Complete, Set, EncodeFrame, TableOutcome;
    AllWaitTogether(d.buffer, !d.auth.sessionLess, d.memory.table.index, d.memory.table.fields);
  }

  lemma DataChunkDrains(d: Driver)
    requires Complete(d.buffer) && d.socket.unread == []
    ensures Drained(DataChunkRead(d).driver)
  {
    hide DecodeTransmit, Complete, Set, EncodeFrame;
    AllWaitTogether(d.buffer, !d.auth.sessionLess, 0, []);
  }

  lemma DataDrains(d: Driver)
    requires StepsLegal(d.slots) && d.slots.data.pending && Complete(d.buffer) && d.socket.unread == []
    ensures Drained(DataRead(d).driver)
  {
    hide DataConfigRead, DataTableRead, DataChunkRead, DecodeReply, Complete, Set, TableOutcome;
    assert Legal(Data, Get(d.slots, Data).step);
    AllWaitTogether(d.buffer, !d.auth.sessionLess, 0, []);
    DataConfigDrains(d);
    DataTableDrains(d);
    DataChunkDrains(d);
  }

  lemma CountDrains(d: Driver)
    requires Legal(Count, d.slots.count.step) && Complete(d.buffer) && d.socket.unread == []
    ensures Drained(CountRead(d))
  {
    hide DecodeConfig, DecodeCount, Complete, Set, FindTable, EncodeFrame;
    AllWaitTogether(d.buffer, !d.auth.sessionLess, 0, []);
  }

  lemma FinishDrains(d: Driver, family: Family, signal: Signal)
    requires d.socket.unread == []
    ensures Drained(Finish(d, family, signal))
  {
    hide Set;
  }

  lemma RtLogDrains(d: Driver)
    requires Legal(RtLog, d.slots.rtLog.step) && Complete(d.buffer) && d.socket.unread == []
    ensures Drained(RtLogRead(d))
  {
    hide DecodeRtlogBinary, DecodeRtlogKeyValue, Complete, Finish;
    AllWaitTogether(d.buffer, !d.auth.sessionLess, 0, []);
    FinishDrains(d, RtLog, RealtimeLogFailed(BadReply));
    if d.slots.rtLog.step == AwaitingBinaryReply {
      var reply := DecodeRtlogBinary(d.buffer, !d.auth.sessionLess);
      FinishDrains(d, RtLog, RealtimeLogReceived(if reply.LogRecords? then reply.records else []));
    } else {
      var reply := DecodeRtlogKeyValue(d.buffer, !d.auth.sessionLess);
      FinishDrains(d, RtLog, RealtimeLogKeyValueReceived(reply.records));
    }
  }

  lemma OthersDrain(d: Driver)
    requires StepsLegal(d.slots) && OthersListen(d.slots) && Complete(d.buffer + d.socket.unread)
    ensures Drained(OthersRead(d))
  {
    hide CountRead, RtLogRead, DecodeReply, Text.DecodeGetParam, Complete, Set, Legal;
    AllWaitTogether(d.buffer + d.socket.unread, !d.auth.sessionLess, 0, []);
    if d.slots.rtLog.pending {
      assert Legal(RtLog, Get(d.slots, RtLog).step);
      RtLogDrains(ReadAll(d));
    } else if d.slots.count.pending {
      assert Legal(Count, Get(d.slots, Count).step);
      CountDrains(ReadAll(d));
    }
  }

  lemma HandshakeDrains(d: Driver)
    requires Complete(d.buffer) && d.handshake.step != NoHandshake && d.socket.unread == []
    ensures Drained(HandshakeRead(d))
  {
    hide DecodeConnectSession, DecodeReply, Complete;
    AllWaitTogether(d.buffer, false, 0, []);
  }

  /** The branches below the table query find nothing once it has consumed the reply. */
  lemma FallThroughIsQuiet(d: Driver)
    requires StepsLegal(d.slots) && Drained(d)
    ensures OthersRead(d) == d
  {
    Nothing(d.buffer);
    OthersWait(d);
  }

  lemma Drains(d: Driver, bytes: seq<byte>)
    requires Inv(d) && Listens(d) && !Deaf(d) && Complete(d.buffer + d.socket.unread + bytes)
    ensures Drained(OnReadyRead(d, bytes))
  {
    hide HandshakeRead, DataRead, OthersRead, Complete;
    var arrived := Arrive(d, bytes);
    Associate(d.buffer, d.socket.unread, bytes);
    InvStepsLegal(d);
    if d.handshake.attempt {
      HandshakeDrains(ReadAll(arrived));
    } else if !d.slots.data.pending {
      OthersDrain(arrived);
    } else {
      DataDrains(ReadAll(arrived));
      DataKeeps(ReadAll(arrived));
      var after := DataRead(ReadAll(arrived)).driver;
      InvStepsLegal(after);
      FallThroughIsQuiet(after);
    }
  }

  // ---- Splitting ----

  /** The chunks delivered one after the other. */
  function Deliver(d: Driver, chunks: seq<seq<byte>>): Driver
    decreases |chunks|
  {
    if chunks == [] then d else Deliver(OnReadyRead(d, chunks[0]), chunks[1..])
  }

  function Reads(chunks: seq<seq<byte>>): seq<Event> {
    seq(|chunks|, i requires 0 <= i < |chunks| => ReadyRead(chunks[i]))
  }

  lemma {:induction false} DeliverIsRun(d: Driver, chunks: seq<seq<byte>>)
    ensures Deliver(d, chunks) == Run(d, Reads(chunks))
    decreases |chunks|
  {
    hide OnReadyRead;
    if chunks != [] {
      DeliverIsRun(OnReadyRead(d, chunks[0]), chunks[1..]);
      assert Reads(chunks)[1..] == Reads(chunks[1..]);
    }
  }

  /** Nothing new to read, and what was read is no whole frame. */
  ghost predicate Settled(d: Driver) {
    Inv(d) && (Listens(d) ==> d.socket.unread == []) &&
      (!Complete(d.buffer + d.socket.unread) || Deaf(d) || !Listens(d))
  }

  lemma EmptyReadIsNothing(d: Driver)
    requires Settled(d)
    ensures OnReadyRead(d, []) == d
  {
    hide OnReadyRead, Complete, Inv;
    InvStepsLegal(d);
    Nothing(d.socket.unread);
    Nothing(d.buffer);
    Nothing(d.buffer + d.socket.unread);
    if Listens(d) {
      Waits(d, []);
    } else {
      SilentRead(d, []);
    }
  }

  lemma SilentRead(d: Driver, bytes: seq<byte>)
    requires !Listens(d)
    ensures OnReadyRead(d, bytes) == Arrive(d, bytes)
  {
  }

  lemma {:induction false} EmptyChunks(d: Driver, chunks: seq<seq<byte>>)
    requires Settled(d) && Concat(chunks) == []
    ensures Deliver(d, chunks) == d
    decreases |chunks|
  {
    hide OnReadyRead, Settled;
    if chunks != [] {
      EmptyReadIsNothing(d);
      EmptyChunks(d, chunks[1..]);
    }
  }

  predicate AtMostOneFrame(data: seq<byte>) {
    !Complete(data) || OneFrame(data)
  }

  /** No byte follows a frame that is complete already. */
  lemma NothingFollows(data: seq<byte>, rest: seq<byte>)
    requires Complete(data) && AtMostOneFrame(data + rest)
    ensures rest == []
  {
    assert FrameSize(data + rest) == FrameSize(data);
  }

  lemma EmptyIsIncomplete()
    ensures !Complete([])
  {
  }

  /** A listening driver sees only the bytes, not where they wait. */
  lemma DispatchReads(a: Driver, b: Driver)
    requires Listens(a) && ReadAll(a) == ReadAll(b) && a.slots == b.slots && a.handshake == b.handshake
    ensures Dispatch(a) == Dispatch(b)
  {
    hide HandshakeRead, DataRead, RtLogRead, ControlRead, GetParamRead, SetParamRead, CountRead;
  }

  lemma ReadOn(d: Driver, first: seq<byte>, more: seq<byte>)
    requires StepsLegal(d.slots) && (!Complete(d.buffer + d.socket.unread + first) || Deaf(d) || !Listens(d))
    ensures OnReadyRead(OnReadyRead(d, first), more) == OnReadyRead(d, first + more)
  {
    hide Dispatch, Complete, StepsLegal;
    Associate(d.socket.unread, first, more);
    if Listens(d) {
      Waits(d, first);
      Associate(d.buffer, d.socket.unread + first, more);
      Nothing(more);
      DispatchReads(Arrive(ReadAll(Arrive(d, first)), more), Arrive(d, first + more));
    } else {
      SilentRead(d, first);
      SilentRead(Arrive(d, first), more);
      SilentRead(d, first + more);
    }
  }

  ghost predicate Expects(d: Driver, bytes: seq<byte>) {
    Listens(d) && !Deaf(d) ==> AtMostOneFrame(d.buffer + bytes)
  }

  lemma StillSettled(d: Driver, first: seq<byte>)
    requires Settled(d) && (!Complete(d.buffer + d.socket.unread + first) || Deaf(d) || !Listens(d))
    ensures Settled(OnReadyRead(d, first))
    ensures OnReadyRead(d, first).slots == d.slots && OnReadyRead(d, first).handshake == d.handshake
    ensures Listens(d) ==> OnReadyRead(d, first).buffer == d.buffer + first
  {
    hide OnReadyRead, Complete, Families, LinkOk;
    Nothing(d.buffer);
    Nothing(d.buffer + first);
    assert d.socket.unread == [] ==> d.socket.unread + first == first;
    if Listens(d) {
      InvStepsLegal(d);
      Waits(d, first);
    } else {
      SilentRead(d, first);
    }
  }

  lemma {:induction false} SplitInvisible(d: Driver, chunks: seq<seq<byte>>)
    requires Settled(d) && Expects(d, Concat(chunks))
    ensures Deliver(d, chunks) == OnReadyRead(d, Concat(chunks))
    decreases |chunks|
  {
    hide OnReadyRead, Complete, Settled, Listens, Deaf, AtMostOneFrame;
    if chunks == [] {
      EmptyReadIsNothing(d);
    } else {
      var first, rest := chunks[0], chunks[1..];
      SplitStep(d, first, rest);
      if StaysOpen(d, first) {
        SplitInvisible(OnReadyRead(d, first), rest);
      }
    }
  }

  ghost predicate StaysOpen(d: Driver, first: seq<byte>) {
    !Complete(d.buffer + d.socket.unread + first) || Deaf(d) || !Listens(d)
  }

  lemma SplitStep(d: Driver, first: seq<byte>, rest: seq<seq<byte>>)
    requires Settled(d) && Expects(d, first + Concat(rest))
    ensures if StaysOpen(d, first)
            then Settled(OnReadyRead(d, first)) && Expects(OnReadyRead(d, first), Concat(rest)) &&
                 OnReadyRead(OnReadyRead(d, first), Concat(rest)) == OnReadyRead(d, first + Concat(rest))
            else Deliver(OnReadyRead(d, first), rest) == OnReadyRead(d, first + Concat(rest))
  {
    hide OnReadyRead, Complete, Families, LinkOk, AtMostOneFrame;
    InvStepsLegal(d);
    Associate(d.buffer, first, Concat(rest));
    if StaysOpen(d, first) {
      StillSettled(d, first);
      ReadOn(d, first, Concat(rest));
    } else {
      Nothing(d.buffer);
      NothingFollows(d.buffer + first, Concat(rest));
      Nothing(first);
      Drains(d, first);
      ReadKeeps(d, first);
      EmptyIsIncomplete();
      var after := OnReadyRead(d, first);
      assert after.buffer + after.socket.unread == [];
      EmptyChunks(after, rest);
    }
  }

  /** The same from any drained state that keeps the invariant. */
  lemma DrainedDelivers(d: Driver, chunks: seq<seq<byte>>)
    requires Inv(d) && Drained(d) && OneFrame(Concat(chunks))
    ensures Deliver(d, chunks) == OnReadyRead(d, Concat(chunks))
  {
    hide OnReadyRead, Listens, Deaf, Families, LinkOk;
    assert d.buffer + Concat(chunks) == Concat(chunks);
    EmptyIsIncomplete();
    SplitInvisible(d, chunks);
  }

  /**
   In every reachable state with nothing read and nothing unread, one reply frame split over any
   number of reads, empty ones included, leaves the driver where one read leaves it: same signals,
   same frames written, same state.
   */
  lemma SegmentationInvisible(events: seq<Event>, frame: seq<byte>, chunks: seq<seq<byte>>)
    requires Feasible(INITIAL, events) && Drained(Run(INITIAL, events))
    requires OneFrame(frame) && Concat(chunks) == frame
    ensures Run(Run(INITIAL, events), Reads(chunks)) == OnReadyRead(Run(INITIAL, events), frame)
  {
    hide Run, Feasible, OnReadyRead, Listens, Deaf;
    var d := Run(INITIAL, events);
    InitialInv();
    RunKeepsInv(INITIAL, events);
    Nothing(frame);
    EmptyIsIncomplete();
    SplitInvisible(d, chunks);
    DeliverIsRun(d, chunks);
  }
}
