/**
 A table query against a panel: schema, then either one reply or a transfer in pieces.

 The panel reads the frame the driver wrote last and answers it from a fixed buffer. It chooses the
 size of every piece, and the network chooses how every reply is split.
 */
module C3Transfer {
  import opened Bytes
  import opened Sequences
  import opened Wrappers
  import opened C3Frame
  import opened C3Messages
  import opened C3Connection
  import opened C3Accounting
  import opened C3Segmentation
  import opened C3Replies
  import C3Session
  import Records = C3Records
  import Text = C3Text

  // ---- The panel ----

  /** One frame that carries this payload under this command. */
  predicate Answers(reply: seq<byte>, strip: bool, command: byte, payload: seq<byte>) {
    OneFrame(reply) && DecodeGeneric(reply, strip) == Decoded(Ok, payload, command)
  }

  /** A piece of the buffer: not empty while anything is left. */
  predicate Piece(buffer: seq<byte>, offset: int, size: nat) {
    0 <= offset && offset + size <= |buffer| && (offset < |buffer| ==> size > 0)
  }

  predicate CarriesPiece(buffer: seq<byte>, offset: int, reply: seq<byte>, strip: bool, size: nat, command: byte) {
    Piece(buffer, offset, size) && Answers(reply, strip, command, Little32(offset) + buffer[offset..offset + size])
  }

  /** The reply is a piece of the buffer at this offset, of any size and under any command but the error reply. */
  ghost predicate SendsPiece(buffer: seq<byte>, offset: int, reply: seq<byte>, strip: bool) {
    exists size: nat, command: byte :: CarriesPiece(buffer, offset, reply, strip, size, command)
  }

  /** What the panel may reply to a request, as it reads that request. */
  ghost predicate Serves(buffer: seq<byte>, request: seq<byte>, reply: seq<byte>, strip: bool) {
    var asked := DecodeGeneric(request, strip);
    if asked.command == 0x0E && |asked.payload| == 4
    then SendsPiece(buffer, ReadLittle32(asked.payload, 0), reply, strip)
    else OneFrame(reply)
  }

  /** One exchange: a reply and how it was split. */
  datatype Round = Round(reply: seq<byte>, chunks: seq<seq<byte>>)

  predicate LastWrote(d: Driver, request: seq<byte>) {
    |d.log| > 0 && d.log[|d.log| - 1] == Wrote(request)
  }

  ghost predicate HonestRound(d: Driver, buffer: seq<byte>, round: Round) {
    && Concat(round.chunks) == round.reply
    && exists request :: LastWrote(d, request) && Serves(buffer, request, round.reply, !d.auth.sessionLess)
  }

  function Play(d: Driver, rounds: seq<Round>): Driver
    decreases |rounds|
  {
    if rounds == [] then d else Play(Deliver(d, rounds[0].chunks), rounds[1..])
  }

  /** The panel answers as long as the query is pending. */
  ghost predicate HonestRun(d: Driver, buffer: seq<byte>, rounds: seq<Round>)
    decreases |rounds|
  {
    rounds == [] ||
    (d.slots.data.pending && HonestRound(d, buffer, rounds[0]) &&
     HonestRun(Deliver(d, rounds[0].chunks), buffer, rounds[1..]))
  }

  // ---- Where a query stands ----

  function SignalsOf(log: seq<Entry>): seq<Signal> {
    if log == [] then [] else
    var n := |log| - 1;
    SignalsOf(log[..n]) + if log[n].Signalled? then [log[n].signal] else []
  }

  ghost predicate At(d: Driver, step: QueryStep) {
    Inv(d) && Drained(d) && !d.handshake.attempt && d.slots.data == Slot(true, true, step)
  }

  /** The assembly is a prefix of the buffer, and its length is the offset just asked for. */
  ghost predicate Fetching(d: Driver, buffer: seq<byte>) {
    && At(d, AwaitingBigDataChunk)
    && d.memory.assembly <= buffer && (|d.memory.assembly| < |buffer| || buffer == []) && d.memory.expected == |buffer|
    && LastWrote(d, EncodeFrame(0x0E, Asked(d.auth), Little32(|d.memory.assembly|)))
  }

  /** The session a frame was sent under, one request ago. */
  function Asked(auth: Auth): Session {
    if auth.sessionLess then SessionLess else InSession(auth.id, auth.requestNr - 1)
  }

  ghost predicate Freeing(d: Driver, buffer: seq<byte>) {
    && At(d, AwaitingFreeDataAck)
    && d.memory.assembly == buffer
    && LastWrote(d, EncodeFrame(0x0F, Asked(d.auth), []))
  }

  /** Nothing a transfer may not touch has changed. */
  predicate SameQuery(d: Driver, e: Driver) {
    && e.memory.tableName == d.memory.tableName && e.memory.table == d.memory.table
    && e.auth.sessionLess == d.auth.sessionLess && e.socket == d.socket && e.handshake == d.handshake &&
       e.link == d.link
  }

  function Outcome(memory: Memory, buffer: seq<byte>, reason: Reason): Signal {
    TableOutcome(memory.tableName, Records.Parse(buffer, memory.table.index, memory.table.fields), reason)
  }

  // ---- One reply ----

  /** A reply to the table query goes to it, however it is split, and to nobody else. */
  lemma ReplyReachesQuery(d: Driver, step: QueryStep, reply: seq<byte>, chunks: seq<seq<byte>>)
    requires At(d, step) && OneFrame(reply) && Concat(chunks) == reply
    ensures Deliver(d, chunks) == DataRead(d.(buffer := reply)).driver
    ensures Inv(Deliver(d, chunks)) && Drained(Deliver(d, chunks))
  {
    hide OnReadyRead, DataRead, OthersRead, Families, LinkOk;
    Nothing(reply);
    EmptyIsIncomplete();
    SplitInvisible(d, chunks);
    ReadKeeps(d, reply);
    Drains(d, reply);
    ReadWhole(d, step, reply);
  }

  lemma ReadWhole(d: Driver, step: QueryStep, reply: seq<byte>)
    requires At(d, step) && Complete(reply)
    ensures OnReadyRead(d, reply) == DataRead(d.(buffer := reply)).driver
  {
    hide DataRead, OthersRead, Families, LinkOk, Complete;
    Nothing(reply);
    var r := ReadAll(Arrive(d, reply));
    assert r == d.(buffer := reply);
    InvStepsLegal(d);
    DataDrains(r);
    DataKeeps(r);
    InvStepsLegal(DataRead(r).driver);
    FallThroughIsQuiet(DataRead(r).driver);
  }

  lemma SignalsNext(log: seq<Entry>, entry: Entry)
    ensures SignalsOf(log + [entry]) == SignalsOf(log) + if entry.Signalled? then [entry.signal] else []
  {
    assert (log + [entry])[..|log|] == log;
  }

  // ---- Pieces ----

  lemma OffsetRead(offset: int, piece: seq<byte>)
    requires 0 <= offset < TWO_32
    ensures var payload := Little32(offset) + piece;
            |payload| >= 4 && ReadLittle32(payload, 0) == offset && payload[4..] == piece
  {
    Little32RoundTrip(offset);
  }

  /** What the driver reads in a piece. */
  lemma PieceDecoded(reply: seq<byte>, strip: bool, command: byte, offset: int, piece: seq<byte>)
    requires 0 <= offset < TWO_32 && Answers(reply, strip, command, Little32(offset) + piece)
    ensures DecodeTransmit(reply, strip) == TransmitReply(Ok, offset, piece)
  {
    hide DecodeGeneric;
    OffsetRead(offset, piece);
  }

  /** What the panel reads in a request. */
  lemma RequestDecoded(command: byte, auth: Auth, payload: seq<byte>)
    requires command != REPLY_ERROR && |payload| <= 4
    ensures DecodeGeneric(EncodeFrame(command, Asked(auth), payload), !auth.sessionLess) ==
            Decoded(Ok, payload, command)
  {
    hide EncodeFrame, DecodeGeneric;
    var frame := EncodeFrame(command, Asked(auth), payload);
    Nothing(frame);
    RoundTripIff(command, Asked(auth), payload, []);
  }

  lemma OneLastWrite(d: Driver, a: seq<byte>, b: seq<byte>)
    requires LastWrote(d, a) && LastWrote(d, b)
    ensures a == b
  {
  }

  lemma FetchingServed(d: Driver, buffer: seq<byte>, round: Round)
    requires Fetching(d, buffer) && HonestRound(d, buffer, round) && |buffer| < TWO_32
    ensures SendsPiece(buffer, |d.memory.assembly|, round.reply, !d.auth.sessionLess)
  {
    hide EncodeFrame, DecodeGeneric, SendsPiece, At;
    var offset := |d.memory.assembly|;
    var request := EncodeFrame(TRANSMIT_DATA, Asked(d.auth), Little32(offset));
    forall other | LastWrote(d, other) && Serves(buffer, other, round.reply, !d.auth.sessionLess)
      ensures Serves(buffer, request, round.reply, !d.auth.sessionLess)
    {
      OneLastWrite(d, request, other);
    }
    RequestDecoded(TRANSMIT_DATA, d.auth, Little32(offset));
    Little32RoundTrip(offset);
  }

  lemma SendAsks(d: Driver, command: byte, payload: seq<byte>)
    ensures var e := Send(d, command, payload);
            && LastWrote(e, EncodeFrame(command, Asked(e.auth), payload)) && SignalsOf(e.log) == SignalsOf(d.log)
            && e == d.(auth := e.auth, log := e.log) && e.auth.sessionLess == d.auth.sessionLess
  {
    hide EncodeFrame;
    SignalsNext(d.log, Wrote(EncodeFrame(command, SessionOf(d.auth), payload)));
  }

  lemma PrefixGrows(assembly: seq<byte>, buffer: seq<byte>, size: nat)
    requires assembly <= buffer && |assembly| + size <= |buffer|
    ensures assembly + buffer[|assembly|..|assembly| + size] == buffer[..|assembly| + size]
  {
  }

  /** The branch for a piece, given what was decoded. */
  lemma ChunkBranch(d: Driver, chunk: seq<byte>)
    requires d.slots.data.step == AwaitingBigDataChunk && |d.memory.assembly + chunk| < TWO_32
    requires DecodeTransmit(d.buffer, !d.auth.sessionLess) == TransmitReply(Ok, |d.memory.assembly|, chunk)
    ensures var assembly := d.memory.assembly + chunk;
            var stored := d.memory.(assembly := assembly);
            DataRead(d).driver ==
            if |assembly| < d.memory.expected
            then Send(Advance(d, Data, AwaitingBigDataChunk).(memory := stored), TRANSMIT_DATA, Little32(|assembly|))
            else Send(Advance(d, Data, AwaitingFreeDataAck).(memory := stored), FREE_DATA, [])
  {
    hide DecodeTransmit, Send, Advance, Finish, Little32, DataConfigRead, DataTableRead, DataFreeRead;
    assert |d.memory.assembly| % TWO_32 == |d.memory.assembly|;
    assert |d.memory.assembly + chunk| % TWO_32 == |d.memory.assembly + chunk|;
  }

  lemma PieceStored(d: Driver, buffer: seq<byte>, size: nat)
    requires d.slots.data == Slot(true, true, AwaitingBigDataChunk) && |buffer| < TWO_32
    requires d.memory.assembly <= buffer && d.memory.expected == |buffer| && Piece(buffer, |d.memory.assembly|, size)
    requires var n := |d.memory.assembly|;
             DecodeTransmit(d.buffer, !d.auth.sessionLess) == TransmitReply(Ok, n, buffer[n..n + size])
    ensures var e, n := DataRead(d).driver, |d.memory.assembly| + size;
            && e.memory.assembly == buffer[..n] && e.memory.expected == |buffer| && SameQuery(d, e) &&
               SignalsOf(e.log) == SignalsOf(d.log)
            && e.slots.data == Slot(true, true, if n < |buffer| then AwaitingBigDataChunk else AwaitingFreeDataAck)
            && LastWrote(e, if n < |buffer| then EncodeFrame(TRANSMIT_DATA, Asked(e.auth), Little32(n))
                            else EncodeFrame(FREE_DATA, Asked(e.auth), []))
  {
    hide DataRead, DecodeTransmit, EncodeFrame, LastWrote, SignalsOf, Send, Little32;
    var n := |d.memory.assembly|;
    PrefixGrows(d.memory.assembly, buffer, size);
    ChunkBranch(d, buffer[n..n + size]);
    var stored := d.memory.(assembly := buffer[..n + size]);
    if n + size < |buffer| {
      SendAsks(Advance(d, Data, AwaitingBigDataChunk).(memory := stored), TRANSMIT_DATA, Little32(n + size));
    } else {
      SendAsks(Advance(d, Data, AwaitingFreeDataAck).(memory := stored), FREE_DATA, []);
    }
  }

  function AtLeastOne(n: int): int {
    if n < 1 then 1 else n
  }

  /** The measure of a transfer: bytes still to come, then the acknowledgement. */
  function Left(d: Driver, buffer: seq<byte>): int {
    if d.slots.data.step == AwaitingBigDataChunk then 1 + AtLeastOne(|buffer| - |d.memory.assembly|)
    else if d.slots.data.step == AwaitingFreeDataAck then 1
    else 0
  }

  /** Every honest piece is stored in its place, and the next request asks for exactly what is missing. */
  lemma FetchStep(d: Driver, buffer: seq<byte>, round: Round)
    requires Fetching(d, buffer) && HonestRound(d, buffer, round) && |buffer| < TWO_32
    ensures var e := Deliver(d, round.chunks);
            && (Fetching(e, buffer) || Freeing(e, buffer)) && Left(e, buffer) < Left(d, buffer)
            && SameQuery(d, e) && SignalsOf(e.log) == SignalsOf(d.log)
  {
    hide SendsPiece, Answers, EncodeFrame, LastWrote, SignalsOf, DataRead, Deliver, Families, LinkOk, Serves;
    var n := |d.memory.assembly|;
    FetchingServed(d, buffer, round);
    var size, command := TakePiece(buffer, n, round.reply, !d.auth.sessionLess);
    PieceDecoded(round.reply, !d.auth.sessionLess, command, n, buffer[n..n + size]);
    AnswerIsFrame(round.reply, !d.auth.sessionLess, command, Little32(n) + buffer[n..n + size]);
    ReplyReachesQuery(d, AwaitingBigDataChunk, round.reply, round.chunks);
    PieceStored(d.(buffer := round.reply), buffer, size);
  }

  lemma TakePiece(buffer: seq<byte>, offset: int, reply: seq<byte>, strip: bool) returns (size: nat, command: byte)
    requires SendsPiece(buffer, offset, reply, strip)
    ensures Piece(buffer, offset, size) &&
            Answers(reply, strip, command, Little32(offset) + buffer[offset..offset + size])
  {
    size, command :| CarriesPiece(buffer, offset, reply, strip, size, command);
  }

  lemma AnswerIsFrame(reply: seq<byte>, strip: bool, command: byte, payload: seq<byte>)
    requires Answers(reply, strip, command, payload)
    ensures OneFrame(reply)
  {
  }

  // ---- The acknowledgement ----

  /** Whatever frame acknowledges the release, the assembled buffer is parsed and the query ends with one signal. */
  lemma FreeStep(d: Driver, buffer: seq<byte>, round: Round)
    requires Freeing(d, buffer) && OneFrame(round.reply) && Concat(round.chunks) == round.reply
    ensures var e := Deliver(d, round.chunks);
            && Inv(e) && Drained(e) && e.slots.data == FREE && SameQuery(d, e)
            && SignalsOf(e.log) == SignalsOf(d.log) + [Outcome(d.memory, buffer, BadAssembly)]
  {
    hide SignalsOf, Deliver, Families, LinkOk, DecodeReply, EncodeFrame, Records.Parse;
    ReplyReachesQuery(d, AwaitingFreeDataAck, round.reply, round.chunks);
    FrameDecides(round.reply);
    SignalsNext(d.log, Signalled(Outcome(d.memory, buffer, BadAssembly)));
  }

  lemma FrameDecides(reply: seq<byte>)
    requires OneFrame(reply)
    ensures DecodeReply(reply) != Incomplete
  {
  }

  lemma FreeingServed(d: Driver, buffer: seq<byte>, round: Round)
    requires Freeing(d, buffer) && HonestRound(d, buffer, round)
    ensures OneFrame(round.reply)
  {
    hide EncodeFrame, DecodeGeneric, SendsPiece, At;
    var request := EncodeFrame(FREE_DATA, Asked(d.auth), []);
    forall other | LastWrote(d, other) && Serves(buffer, other, round.reply, !d.auth.sessionLess)
      ensures Serves(buffer, request, round.reply, !d.auth.sessionLess)
    {
      OneLastWrite(d, request, other);
    }
    RequestDecoded(FREE_DATA, d.auth, []);
  }

  // ---- The whole transfer ----

  /** The transfer that started in `d` has ended in `e`: one signal, and it is what the whole buffer parses to. */
  ghost predicate Delivered(d: Driver, e: Driver, buffer: seq<byte>) {
    && Inv(e) && Drained(e) && e.slots.data == FREE
    && SignalsOf(e.log) == SignalsOf(d.log) + [Outcome(d.memory, buffer, BadAssembly)]
  }

  /** Where a transfer can stand: still silent, or delivered. */
  ghost predicate Underway(d: Driver, e: Driver, buffer: seq<byte>) {
    (Fetching(e, buffer) || Freeing(e, buffer)) && SignalsOf(e.log) == SignalsOf(d.log)
  }

  lemma RoundStep(d: Driver, buffer: seq<byte>, round: Round)
    requires (Fetching(d, buffer) || Freeing(d, buffer)) && HonestRound(d, buffer, round) && |buffer| < TWO_32
    ensures var e := Deliver(d, round.chunks);
            SameQuery(d, e) && (Underway(d, e, buffer) || Delivered(d, e, buffer)) && Left(e, buffer) < Left(d, buffer)
  {
    hide LastWrote, SignalsOf, Deliver, Inv, EncodeFrame, HonestRound, Outcome, SameQuery;
    if Fetching(d, buffer) {
      FetchStep(d, buffer, round);
    } else {
      FreeingServed(d, buffer, round);
      RoundParts(d, buffer, round);
      FreeStep(d, buffer, round);
    }
  }

  lemma RoundParts(d: Driver, buffer: seq<byte>, round: Round)
    requires HonestRound(d, buffer, round)
    ensures Concat(round.chunks) == round.reply
  {
  }

  /**
   Against every honest panel, at every point of the exchange: the assembly is a prefix of the buffer
   and the outstanding request asks for its length, or everything has arrived and is being released,
   or exactly one signal has been emitted and it is what the buffer parses to. The measure falls with
   every round.
   */
  lemma {:induction false} TransferCorrect(d: Driver, buffer: seq<byte>, rounds: seq<Round>)
    requires (Fetching(d, buffer) || Freeing(d, buffer)) && HonestRun(d, buffer, rounds) && |buffer| < TWO_32
    ensures var e := Play(d, rounds);
            && (Underway(d, e, buffer) || Delivered(d, e, buffer))
            && |rounds| <= Left(d, buffer) - Left(e, buffer)
    decreases |rounds|
  {
    hide Fetching, Freeing, Left, SignalsOf, Deliver, Inv, HonestRound, Outcome;
    if rounds != [] {
      var next := Deliver(d, rounds[0].chunks);
      RoundStep(d, buffer, rounds[0]);
      SameOutcome(d, next, buffer);
      if Underway(d, next, buffer) {
        TransferCorrect(next, buffer, rounds[1..]);
      } else {
        NothingAfterwards(next, buffer, rounds[1..]);
      }
    }
  }

  lemma SameOutcome(d: Driver, e: Driver, buffer: seq<byte>)
    requires SameQuery(d, e)
    ensures Outcome(d.memory, buffer, BadAssembly) == Outcome(e.memory, buffer, BadAssembly)
  {
  }

  lemma NothingAfterwards(d: Driver, buffer: seq<byte>, rounds: seq<Round>)
    requires d.slots.data == FREE && HonestRun(d, buffer, rounds)
    ensures rounds == [] && Play(d, rounds) == d
  {
  }

  /** A transfer ends: it takes at most one round a byte, an empty buffer one, and one for the release. */
  lemma TransferEnds(d: Driver, buffer: seq<byte>, rounds: seq<Round>)
    requires Fetching(d, buffer) && HonestRun(d, buffer, rounds) && |buffer| < TWO_32
    ensures |rounds| <= AtLeastOne(|buffer|) + 1
    ensures |rounds| == AtLeastOne(|buffer|) + 1 ==> Delivered(d, Play(d, rounds), buffer)
  {
    hide *;
    TransferCorrect(d, buffer, rounds);
    FetchingLeft(d, buffer);
    LeftAtLeastOne(d, Play(d, rounds), buffer);
  }

  lemma FetchingLeft(d: Driver, buffer: seq<byte>)
    requires Fetching(d, buffer)
    ensures Left(d, buffer) <= AtLeastOne(|buffer|) + 1
  {
    hide Inv;
  }

  lemma LeftAtLeastOne(d: Driver, e: Driver, buffer: seq<byte>)
    ensures Underway(d, e, buffer) ==> Left(e, buffer) >= 1
    ensures Delivered(d, e, buffer) ==> Left(e, buffer) >= 0
  {
    hide Inv, SignalsOf;
  }

  /** And it never gets stuck: until it has ended, the panel has an honest reply. */
  lemma TransferGoesOn(d: Driver, buffer: seq<byte>) returns (round: Round)
    requires (Fetching(d, buffer) || Freeing(d, buffer)) && |buffer| < TWO_32
    ensures d.slots.data.pending && HonestRound(d, buffer, round)
  {
    hide EncodeFrame, DecodeGeneric, Inv;
    var strip := !d.auth.sessionLess;
    var offset := |d.memory.assembly|;
    if Fetching(d, buffer) {
      var size := if offset < |buffer| then 1 else 0;
      var payload := Little32(offset) + buffer[offset..offset + size];
      var request := EncodeFrame(TRANSMIT_DATA, Asked(d.auth), Little32(offset));
      var reply := EncodeFrame(REPLY_OK, Asked(d.auth), payload);
      FrameAnswers(REPLY_OK, d.auth, payload);
      RequestDecoded(TRANSMIT_DATA, d.auth, Little32(offset));
      Little32RoundTrip(offset);
      assert CarriesPiece(buffer, offset, reply, strip, size, REPLY_OK);
      assert LastWrote(d, request) && Serves(buffer, request, reply, strip);
      round := Round(reply, [reply]);
    } else {
      var request := EncodeFrame(FREE_DATA, Asked(d.auth), []);
      var reply := EncodeFrame(REPLY_OK, Asked(d.auth), []);
      FrameAnswers(REPLY_OK, d.auth, []);
      RequestDecoded(FREE_DATA, d.auth, []);
      assert LastWrote(d, request) && Serves(buffer, request, reply, strip);
      round := Round(reply, [reply]);
    }
    Nothing(round.reply);
    assert Concat(round.chunks) == round.reply + Concat(round.chunks[1..]);
  }

  /** The encoder's frames carry their payload. */
  lemma FrameAnswers(command: byte, auth: Auth, payload: seq<byte>)
    requires command != REPLY_ERROR && |payload| < 65532
    ensures Answers(EncodeFrame(command, Asked(auth), payload), !auth.sessionLess, command, payload)
  {
    hide DecodeGeneric, Wrap, Complete, Intact;
    var content := SessionBlock(Asked(auth)) + payload;
    var frame := EncodeFrame(command, Asked(auth), payload);
    Nothing(frame);
    RoundTripIff(command, Asked(auth), payload, []);
    WrapShape(PROTOCOL_VERSION, command, content, []);
  }

  // ---- The whole query ----

  /** The announcement of an uncompressed buffer of this size. */
  predicate Announces(reply: seq<byte>, strip: bool, size: nat) {
    && OneFrame(reply) && DecodeGeneric(reply, strip).status == Ok &&
       DecodeGeneric(reply, strip).command == 0x0D
    && var payload := DecodeGeneric(reply, strip).payload;
       |payload| == 17 && payload[0] == 0 && ReadLittle32(payload, 1) == size
  }

  lemma AnnouncementDecoded(reply: seq<byte>, strip: bool, size: nat, table: int, fields: seq<Records.Field>)
    requires Announces(reply, strip, size)
    ensures DecodeGetData(reply, table, fields, strip) == DataPrepared(false, size)
  {
    hide DecodeGeneric, Records.Parse, ReadLittle32;
  }

  /** An announced transfer starts at offset zero. */
  lemma PrepareStep(d: Driver, buffer: seq<byte>, round: Round)
    requires At(d, AwaitingTableData) && Concat(round.chunks) == round.reply
    requires Announces(round.reply, !d.auth.sessionLess, |buffer|)
    ensures var e := Deliver(d, round.chunks);
            Fetching(e, buffer) && e.memory.assembly == [] && SameQuery(d, e) && SignalsOf(e.log) == SignalsOf(d.log)
  {
    hide DecodeGetData, Families, LinkOk, EncodeFrame, SignalsOf, Deliver, LastWrote, Send, Little32, DecodeGeneric;
    ReplyReachesQuery(d, AwaitingTableData, round.reply, round.chunks);
    AnnouncementDecoded(round.reply, !d.auth.sessionLess, |buffer|, d.memory.table.index, d.memory.table.fields);
    var empty := d.memory.(assembly := [], expected := |buffer|);
    SendAsks(Advance(d, Data, AwaitingBigDataChunk).(buffer := [], memory := empty), TRANSMIT_DATA, Little32(0));
  }

  lemma ParsedDirectly(reply: seq<byte>, strip: bool, command: byte, buffer: seq<byte>, table: int,
                       fields: seq<Records.Field>)
    requires Answers(reply, strip, command, buffer) && command != 0x0D
    ensures DecodeGetData(reply, table, fields, strip) == DataParsed(Records.Parse(buffer, table, fields))
  {
    hide DecodeGeneric, Records.Parse;
  }

  /** A table that fits one frame is parsed from that frame. */
  lemma SingleFrame(d: Driver, buffer: seq<byte>, command: byte, round: Round)
    requires At(d, AwaitingTableData) && Concat(round.chunks) == round.reply
    requires Answers(round.reply, !d.auth.sessionLess, command, buffer) && command != 0x0D
    ensures var e := Deliver(d, round.chunks);
            e.slots.data == FREE && SignalsOf(e.log) == SignalsOf(d.log) + [Outcome(d.memory, buffer, BadData)]
  {
    hide DecodeGetData, Families, LinkOk, EncodeFrame, SignalsOf, Deliver, Records.Parse, DecodeGeneric, Little32;
    ReplyReachesQuery(d, AwaitingTableData, round.reply, round.chunks);
    ParsedDirectly(round.reply, !d.auth.sessionLess, command, buffer, d.memory.table.index, d.memory.table.fields);
    SignalsNext(d.log, Signalled(Outcome(d.memory, buffer, BadData)));
  }

  /** Both succeed with the same records, or both fail; only the wording of a failure differs. */
  predicate SameResult(a: Signal, b: Signal) {
    a == b || (a.TableDataFailed? && b.TableDataFailed? && a.name == b.name)
  }

  ghost predicate Completed(d: Driver, e: Driver, signal: Signal) {
    e.slots.data == FREE && SignalsOf(e.log) == SignalsOf(d.log) + [signal]
  }

  /** Sent in pieces or in one frame, a table gives the caller the same result. */
  lemma PiecesLikeOneFrame(d: Driver, buffer: seq<byte>, announcement: Round, rounds: seq<Round>, command: byte,
                           whole: Round)
    requires At(d, AwaitingTableData) && |buffer| < TWO_32
    requires Concat(announcement.chunks) == announcement.reply &&
             Announces(announcement.reply, !d.auth.sessionLess, |buffer|)
    requires HonestRun(Deliver(d, announcement.chunks), buffer, rounds)
    requires !Play(Deliver(d, announcement.chunks), rounds).slots.data.pending
    requires Concat(whole.chunks) == whole.reply && Answers(whole.reply, !d.auth.sessionLess, command, buffer) &&
             command != 0x0D
    ensures exists a, b :: SameResult(a, b)
                           && Completed(d, Play(Deliver(d, announcement.chunks), rounds), a)
                           && Completed(d, Deliver(d, whole.chunks), b)
  {
    hide *;
    PiecesComplete(d, buffer, announcement, rounds);
    SingleFrame(d, buffer, command, whole);
    SameResults(d, d.memory, buffer, Play(Deliver(d, announcement.chunks), rounds), Deliver(d, whole.chunks));
  }

  lemma SameResults(d: Driver, memory: Memory, buffer: seq<byte>, pieces: Driver, whole: Driver)
    requires Completed(d, pieces, Outcome(memory, buffer, BadAssembly))
    requires whole.slots.data == FREE && SignalsOf(whole.log) == SignalsOf(d.log) + [Outcome(memory, buffer, BadData)]
    ensures exists a, b :: SameResult(a, b) && Completed(d, pieces, a) && Completed(d, whole, b)
  {
    hide SignalsOf, Records.Parse;
    assert SameResult(Outcome(memory, buffer, BadAssembly), Outcome(memory, buffer, BadData));
    assert Completed(d, whole, Outcome(memory, buffer, BadData));
  }

  lemma PiecesComplete(d: Driver, buffer: seq<byte>, announcement: Round, rounds: seq<Round>)
    requires At(d, AwaitingTableData) && |buffer| < TWO_32
    requires Concat(announcement.chunks) == announcement.reply &&
             Announces(announcement.reply, !d.auth.sessionLess, |buffer|)
    requires HonestRun(Deliver(d, announcement.chunks), buffer, rounds)
    requires !Play(Deliver(d, announcement.chunks), rounds).slots.data.pending
    ensures Completed(d, Play(Deliver(d, announcement.chunks), rounds), Outcome(d.memory, buffer, BadAssembly))
  {
    hide Inv, SignalsOf, Deliver, Play, HonestRun, Announces, LastWrote, Outcome;
    PrepareStep(d, buffer, announcement);
    var start := Deliver(d, announcement.chunks);
    TransferCorrect(start, buffer, rounds);
    SameOutcome(d, start, buffer);
  }

  // ---- From the schema on ----

  /** The panel reads in the request: the table's index, and its columns in the schema's order. */
  predicate AsksFor(payload: seq<byte>, table: Text.Table) {
    && |payload| == |table.fields| + 4
    && payload[0] == table.index % 256 && payload[1] == |table.fields| % 256
    && (forall k | 0 <= k < |table.fields| :: payload[2 + k] == table.fields[k].index % 256)
    && payload[|payload| - 2] == 0 && payload[|payload| - 1] == 0
  }

  lemma PayloadAsks(table: Text.Table)
    ensures AsksFor(GetDataPayload(table), table)
  {
  }

  /** The query goes on with the first table of the name asked for, and asks the panel for exactly that one. */
  lemma ConfigStep(d: Driver, tables: seq<Text.Table>, i: nat, round: Round)
    requires At(d, AwaitingTableConfig) && Arrives(round.reply, round.chunks)
    requires Describes(round.reply, !d.auth.sessionLess, tables) && FirstNamed(tables, d.memory.tableName, i)
    ensures var e := Deliver(d, round.chunks);
            && At(e, AwaitingTableData) && e.memory == d.memory.(table := tables[i])
            && e.auth.sessionLess == d.auth.sessionLess && SignalsOf(e.log) == SignalsOf(d.log)
            && AsksFor(GetDataPayload(tables[i]), tables[i])
            && (|tables[i].fields| < 65528 ==> Requests(e.log, d.auth, 0x08, GetDataPayload(tables[i])))
  {
    hide DecodeConfig, Families, LinkOk, EncodeFrame, SignalsOf, Deliver, LastWrote, Send, GetDataPayload, FindTable,
      DecodeGeneric, Describes, AsksFor, Requests;
    var table := tables[i];
    ReplyReachesQuery(d, AwaitingTableConfig, round.reply, round.chunks);
    ConfigDecoded(round.reply, !d.auth.sessionLess, tables);
    FindsFirst(tables, d.memory.tableName, i);
    PayloadAsks(table);
    var next := Advance(d, Data, AwaitingTableData).(buffer := [], memory := d.memory.(table := table));
    SendAsks(next, GET_DATA, GetDataPayload(table));
    if |table.fields| < 65528 {
      PayloadSize(table);
      SendRequests(next, GET_DATA, GetDataPayload(table));
    }
  }

  lemma PayloadSize(table: Text.Table)
    ensures |GetDataPayload(table)| == |table.fields| + 4
  {
  }

  // ---- How a query fails ----

  /** The query has ended with this signal and nothing else has changed for the caller. */
  lemma QueryEnds(d: Driver, step: QueryStep, round: Round, signal: Signal)
    requires At(d, step) && Arrives(round.reply, round.chunks)
    requires DataRead(d.(buffer := round.reply)).driver == Finish(d.(buffer := round.reply), Data, signal)
    ensures Told(d, Deliver(d, round.chunks), Data, signal)
  {
    hide DataRead, Deliver, Families, LinkOk, Set;
    ReplyReachesQuery(d, step, round.reply, round.chunks);
  }

  /** A panel that has no table of that name. */
  lemma QueryFindsNoTable(d: Driver, tables: seq<Text.Table>, round: Round)
    requires At(d, AwaitingTableConfig) && Arrives(round.reply, round.chunks)
    requires Describes(round.reply, !d.auth.sessionLess, tables)
    requires forall j | 0 <= j < |tables| :: tables[j].name != d.memory.tableName
    ensures Told(d, Deliver(d, round.chunks), Data, TableDataFailed(d.memory.tableName, NoSuchTable))
  {
    hide DecodeConfig, Inv, Deliver, FindTable, DecodeGeneric, Describes, Told, Set;
    ConfigDecoded(round.reply, !d.auth.sessionLess, tables);
    FindsNone(tables, d.memory.tableName);
    QueryEnds(d, AwaitingTableConfig, round, TableDataFailed(d.memory.tableName, NoSuchTable));
  }

  /** A panel that refuses, at any step but the last, which ignores its answer. */
  lemma QueryRefused(d: Driver, step: QueryStep, round: Round)
    requires At(d, step) && Arrives(round.reply, round.chunks) && Refuses(round.reply, !d.auth.sessionLess)
    requires step == AwaitingTableConfig || step == AwaitingTableData || step == AwaitingBigDataChunk
    ensures Told(d, Deliver(d, round.chunks), Data,
                 TableDataFailed(d.memory.tableName, if step == AwaitingTableConfig then NoConfig
                                                     else if step == AwaitingTableData then BadData else BadChunk))
  {
    hide Inv, Deliver, DecodeGeneric, Told, Set, Send;
    QueryEnds(d, step, round,
              TableDataFailed(d.memory.tableName, if step == AwaitingTableConfig then NoConfig
                                                  else if step == AwaitingTableData then BadData else BadChunk));
  }

  /** A compressed table is refused by the driver. */
  lemma CompressedRefused(d: Driver, round: Round)
    requires At(d, AwaitingTableData) && Arrives(round.reply, round.chunks)
    requires var frame := DecodeGeneric(round.reply, !d.auth.sessionLess);
             frame.status == Ok && frame.command == 0x0D && |frame.payload| == 17 && frame.payload[0] != 0
    ensures Told(d, Deliver(d, round.chunks), Data, TableDataFailed(d.memory.tableName, Compressed))
  {
    hide Inv, Deliver, DecodeGeneric, Told, Set, Send, ReadLittle32;
    QueryEnds(d, AwaitingTableData, round, TableDataFailed(d.memory.tableName, Compressed));
  }

  /** A piece for another offset than the one asked for ends the transfer. */
  lemma WrongOffsetRefused(d: Driver, round: Round, offset: int, piece: seq<byte>)
    requires At(d, AwaitingBigDataChunk) && Arrives(round.reply, round.chunks) && 0 <= offset < TWO_32
    requires Carries(round.reply, !d.auth.sessionLess, Little32(offset) + piece)
    requires offset != |d.memory.assembly| % TWO_32
    ensures Told(d, Deliver(d, round.chunks), Data, TableDataFailed(d.memory.tableName, BadChunk))
  {
    hide Inv, Deliver, DecodeGeneric, Told, Set, Send, Little32, ReadLittle32;
    OffsetRead(offset, piece);
    QueryEnds(d, AwaitingBigDataChunk, round, TableDataFailed(d.memory.tableName, BadChunk));
  }

  /** Asking for a table, on a ready and quiet connection. */
  lemma AskStep(d: Driver, name: Records.Text)
    requires Inv(d) && Ready(d) && !d.handshake.attempt && !d.slots.data.pending && d.socket.unread == []
    ensures var e := OnAsk(d, TableData(name));
            && At(e, AwaitingTableConfig) && e.memory == d.memory.(tableName := name)
            && e.auth.sessionLess == d.auth.sessionLess && SignalsOf(e.log) == SignalsOf(d.log)
  {
    hide Families, LinkOk, EncodeFrame, SignalsOf;
    AskKeeps(d, TableData(name));
    var accepted := Advance(d, Data, AwaitingTableConfig)
                    .(memory := d.memory.(tableName := name), log := d.log + [Accepted(TableData(name))]);
    SignalsNext(d.log, Accepted(TableData(name)));
    SendAsks(accepted, Text.DATATABLE_CFG, []);
  }

  /** The connection is ready and quiet, and nobody waits for a table. */
  ghost predicate CanAsk(d: Driver) {
    Inv(d) && Ready(d) && !d.handshake.attempt && !d.slots.data.pending && d.socket.unread == []
  }

  /** What a panel with these rows prints for the request it reads: the table and the columns it was asked for. */
  predicate Prints(contents: map<byte, seq<Records.Row>>, log: seq<Entry>, strip: bool, buffer: seq<byte>) {
    && |log| > 0 && log[|log| - 1].Wrote?
    && var asked := DecodeGeneric(log[|log| - 1].frame, strip);
       && asked.status == Ok && asked.command == 0x08 && |asked.payload| >= 2 && asked.payload[0] in contents
       && |asked.payload| >= 2 + asked.payload[1] as int
       && var columns := asked.payload[2..2 + asked.payload[1] as int];
          buffer == Records.Print(asked.payload[0], columns, contents[asked.payload[0]])
  }

  /** Column indexes a byte can hold, each used once. */
  predicate ClearIndexes(fields: seq<Records.Field>) {
    && |fields| <= 255 && (forall k | 0 <= k < |fields| :: 0 <= fields[k].index < 256)
    && forall j, k | 0 <= j < k < |fields| :: fields[j].index != fields[k].index
  }

  lemma {:induction false} FindsField(fields: seq<Records.Field>, k: nat)
    requires k < |fields| && forall j | 0 <= j < k :: fields[j].index != fields[k].index
    ensures Records.FindField(fields, fields[k].index) == Some(fields[k])
  {
    if k > 0 {
      assert fields[0].index != fields[k].index;
      forall j | 0 <= j < k - 1 ensures fields[1..][j].index != fields[1..][k - 1].index {
        assert fields[j + 1].index != fields[k].index;
      }
      FindsField(fields[1..], k - 1);
    }
  }

  /** Asking for the columns of a schema by their indexes gets those columns. */
  lemma ColumnsOfSchema(fields: seq<Records.Field>)
    requires ClearIndexes(fields)
    ensures Records.AllKnown(fields, IndexBytes(fields)) && Records.Columns(fields, IndexBytes(fields)) == fields
  {
    forall k | 0 <= k < |fields| ensures Records.FindField(fields, IndexBytes(fields)[k]) == Some(fields[k]) {
      FindsField(fields, k);
    }
  }

  lemma PrintsColumns(table: Text.Table, contents: map<byte, seq<Records.Row>>, log: seq<Entry>, auth: Auth,
                      buffer: seq<byte>)
    requires ClearIndexes(table.fields) && Requests(log, auth, 0x08, GetDataPayload(table))
    requires Prints(contents, log, !auth.sessionLess, buffer)
    ensures Byte(table.index) in contents &&
            buffer == Records.Print(table.index, IndexBytes(table.fields), contents[Byte(table.index)])
  {
    hide DecodeGeneric, CarriesSession, Records.PrintRows;
    var payload := GetDataPayload(table);
    assert payload[2..2 + |table.fields|] == IndexBytes(table.fields);
  }

  /**
   The purpose of the protocol. A panel has tables and rows; a caller asks for a table by name. The panel describes
   its tables, reads the request it then gets, prints the rows of the table and columns it was asked for, and serves
   them in pieces; the network splits everything as it likes. When the query ends the caller has been told once, and
   told exactly the panel's rows of the first table of that name, under that table's columns.
   */
  lemma QueryDeliversTable(d: Driver, name: Records.Text, tables: seq<Text.Table>, i: nat, config: Round,
                           contents: map<byte, seq<Records.Row>>, buffer: seq<byte>, announcement: Round,
                           rounds: seq<Round>)
    requires CanAsk(d) && Arrives(config.reply, config.chunks) && Describes(config.reply, !d.auth.sessionLess, tables)
    requires FirstNamed(tables, name, i) && ClearIndexes(tables[i].fields)
    requires var rows := if Byte(tables[i].index) in contents then contents[Byte(tables[i].index)] else [];
             Records.AllFit(tables[i].fields, rows) && (tables[i].fields == [] ==> rows == [])
    requires var asked := Deliver(OnAsk(d, TableData(name)), config.chunks);
             && Prints(contents, asked.log, !d.auth.sessionLess, buffer) && |buffer| < TWO_32
             && HonestRun(Deliver(asked, announcement.chunks), buffer, rounds)
             && !Play(Deliver(asked, announcement.chunks), rounds).slots.data.pending
    requires Concat(announcement.chunks) == announcement.reply &&
             Announces(announcement.reply, !d.auth.sessionLess, |buffer|)
    ensures var asked := Deliver(OnAsk(d, TableData(name)), config.chunks);
            && Byte(tables[i].index) in contents
            && SignalsOf(Play(Deliver(asked, announcement.chunks), rounds).log) ==
               SignalsOf(d.log) +
               [TableDataReceived(name, Records.RecordsOf(tables[i].fields, contents[Byte(tables[i].index)]))]
  {
    hide Inv, SignalsOf, Deliver, Play, HonestRun, Announces, Describes, LastWrote, OnAsk, Records.Printed,
      Records.Parse, Drained, Requests, Prints, AsksFor, GetDataPayload, Records.Print, Ready;
    var table := tables[i];
    AskStep(d, name);
    var first := OnAsk(d, TableData(name));
    ConfigStep(first, tables, i, config);
    var asked := Deliver(first, config.chunks);
    PrintsColumns(table, contents, asked.log, first.auth, buffer);
    ColumnsOfSchema(table.fields);
    PiecesComplete(asked, buffer, announcement, rounds);
    RowsPrintedFor(table, contents[Byte(table.index)], buffer);
  }

  lemma RowsPrintedFor(table: Text.Table, rows: seq<Records.Row>, buffer: seq<byte>)
    requires ClearIndexes(table.fields) && Records.AllFit(table.fields, rows) && (table.fields == [] ==> rows == [])
    requires buffer == Records.Print(table.index, IndexBytes(table.fields), rows)
    ensures Records.Parse(buffer, table.index, table.fields) ==
            Records.Response(Records.Ok, Records.RecordsOf(table.fields, rows))
  {
    hide Records.Parse, Records.Print;
    ColumnsOfSchema(table.fields);
    Records.ParsePrinted(buffer, table.index, table.fields, IndexBytes(table.fields), rows);
  }

  // ---- Transfers happen ----

  lemma DeliverOne(d: Driver, reply: seq<byte>)
    ensures Deliver(d, [reply]) == Step(d, ReadyRead(reply)) && Concat([reply]) == reply
  {
    hide OnReadyRead;
    Nothing(reply);
    assert [reply][1..] == [];
  }

  lemma OneTable(name: Records.Text)
    requires name == [0x41]
    ensures var tables := [Text.Table(name, 1, [])];
            Text.GoodTables(tables) && |Text.PrintTables(tables)| == 3
  {
    var table := Text.Table(name, 1, []);
    assert Text.TablePairs(table) == [Text.Pair(name, Text.Decimal(1))];
  }

  lemma CanDescribe(auth: Auth, tables: seq<Text.Table>) returns (reply: seq<byte>)
    requires Text.GoodTables(tables) && |Text.PrintTables(tables)| < 65532
    ensures OneFrame(reply) && Describes(reply, !auth.sessionLess, tables)
  {
    hide EncodeFrame, DecodeGeneric, Text.PrintTables;
    reply := EncodeFrame(REPLY_OK, Asked(auth), Text.PrintTables(tables));
    FrameAnswers(REPLY_OK, auth, Text.PrintTables(tables));
  }

  lemma CanAnnounce(auth: Auth, size: nat) returns (reply: seq<byte>)
    requires size < TWO_32
    ensures Announces(reply, !auth.sessionLess, size)
  {
    hide EncodeFrame, DecodeGeneric;
    var payload := [0] + Little32(size) + [0, 0, 0, 0, 0, 0, 0, 0, 0, 0, 0, 0];
    reply := EncodeFrame(PREPARE_DATA, Asked(auth), payload);
    FrameAnswers(PREPARE_DATA, auth, payload);
    Little32RoundTrip(size);
  }

  /** For every buffer a panel may hold, some run of the driver from the start reaches its transfer. */
  lemma TransferReachable(buffer: seq<byte>) returns (events: seq<Event>)
    requires |buffer| < TWO_32
    ensures Feasible(INITIAL, events) && Fetching(Run(INITIAL, events), buffer)
  {
    hide *;
    var ready := C3Session.SessionGranted();
    InitialInv();
    RunKeepsInv(INITIAL, ready);
    var d := Run(INITIAL, ready);
    var name, table := [0x41], Text.Table([0x41], 1, []);
    OneTable(name);
    GrantedIsReady(d);
    C3Session.RunMore(INITIAL, ready, Ask(TableData(name)));
    AskStep(d, name);
    var asked := OnAsk(d, TableData(name));
    var config := CanDescribe(asked.auth, [table]);
    DeliverOne(asked, config);
    OnlyTable(table, asked.memory.tableName);
    ArrivesWhole(config);
    ConfigStep(asked, [table], 0, Round(config, [config]));
    var asking := ready + [Ask(TableData(name))];
    StepIsHandler(d, TableData(name));
    AlwaysEnabled(Run(INITIAL, ready), Ask(TableData(name)));
    AlwaysEnabled(asked, ReadyRead(config));
    C3Session.RunMore(INITIAL, asking, ReadyRead(config));
    var told := Deliver(asked, [config]);
    var announcement := CanAnnounce(told.auth, |buffer|);
    DeliverOne(told, announcement);
    PrepareStep(told, buffer, Round(announcement, [announcement]));
    var describing := asking + [ReadyRead(config)];
    AlwaysEnabled(told, ReadyRead(announcement));
    C3Session.RunMore(INITIAL, describing, ReadyRead(announcement));
    events := describing + [ReadyRead(announcement)];
  }

  lemma GrantedIsReady(d: Driver)
    requires d.auth.id == 7 && d.socket == Socket(true, []) && d.slots == INITIAL.slots
    ensures Ready(d) && !d.slots.data.pending
  {
  }

  lemma OnlyTable(table: Text.Table, name: Records.Text)
    requires table == Text.Table([0x41], 1, []) && name == [0x41]
    ensures FirstNamed([table], name, 0)
  {
  }

  lemma ArrivesWhole(reply: seq<byte>)
    requires OneFrame(reply) && Concat([reply]) == reply
    ensures Arrives(reply, [reply])
  {
  }

  lemma StepIsHandler(d: Driver, request: Request)
    ensures Step(d, Ask(request)) == OnAsk(d, request)
  {
  }

  lemma AlwaysEnabled(d: Driver, e: Event)
    requires e.Ask? || e.ReadyRead?
    ensures Enabled(d, e)
  {
  }
}
