/**
 The C3 frame: start byte, version, command, 16-bit length, content, CRC and end byte.

 `Wrap` prints a frame; the three decoders of the codec are shown to accept exactly what it
 prints, to wait on every strict prefix, and to refuse every short corruption.
 */
module C3Frame {
  import opened Bytes
  import opened BitStream
  import opened Crc16

  const FRAME_START: byte := 0xAA
  const FRAME_END: byte := 0x55
  const PROTOCOL_VERSION: byte := 0x01
  const REPLY_OK: byte := 0xC8
  const REPLY_ERROR: byte := 0xC9

  /** Whether a message carries the session block, and with which session id and request number. */
  datatype Session = SessionLess | InSession(id: int, requestNr: int)

  datatype Status = Incomplete | Malformed | Rejected | Ok

  datatype Decoded = Decoded(status: Status, payload: seq<byte>, command: byte)

  datatype ConnectReply = ConnectReply(status: Status, sessionId: int)

  const NOTHING := Decoded(Incomplete, [], 0)

  // ---- Encoding ----

  function SessionBlock(session: Session): seq<byte> {
    match session
    case SessionLess => []
    case InSession(id, requestNr) => Little16(id) + Little16(requestNr)
  }

  /** Everything the CRC covers; the length field keeps only sixteen bits of the content's size. */
  function Body(version: byte, command: byte, content: seq<byte>): seq<byte> {
    [version, command] + Little16(|content|) + content
  }

  function Seal(body: seq<byte>): seq<byte> {
    [FRAME_START] + body + Little16(Crc(body)) + [FRAME_END]
  }

  function Wrap(version: byte, command: byte, content: seq<byte>): seq<byte> {
    Seal(Body(version, command, content))
  }

  function EncodeFrame(command: byte, session: Session, payload: seq<byte>): seq<byte> {
    Wrap(PROTOCOL_VERSION, command, SessionBlock(session) + payload)
  }

  method BuildFrame(command: byte, session: Session, payload: seq<byte>) returns (frame: seq<byte>)
    ensures frame == EncodeFrame(command, session, payload)
  {
    var body := [PROTOCOL_VERSION];
    body := body + [command];
    body := body + Little16((if session.InSession? then 4 else 0) + |payload|);
    if session.InSession? {
      body := body + Little16(session.id);
      body := body + Little16(session.requestNr);
    }
    body := body + payload;
    assert body == Body(PROTOCOL_VERSION, command, SessionBlock(session) + payload);
    var checksum := Compute(body);
    frame := [FRAME_START];
    frame := frame + body;
    frame := frame + Little16(checksum);
    frame := frame + [FRAME_END];
  }

  /** The four bytes of the session block, where a panel reads them. */
  predicate CarriesSession(frame: seq<byte>, session: Session) {
    session.InSession? ==>
      && |frame| >= 12 && ReadLittle16(frame, 5) == session.id % 65536
      && ReadLittle16(frame, 7) == session.requestNr % 65536
  }

  lemma SessionOnWire(id: int, requestNr: int, before: seq<byte>, after: seq<byte>)
    requires |before| == 5
    ensures var data := before + SessionBlock(InSession(id, requestNr)) + after;
            ReadLittle16(data, 5) == id % 65536 && ReadLittle16(data, 7) == requestNr % 65536
  {
    Little16RoundTrip(id);
    Little16RoundTrip(requestNr);
  }

  /** The parts of an encoded frame. */
  lemma FrameParts(command: byte, session: Session, payload: seq<byte>)
    ensures var frame := EncodeFrame(command, session, payload);
            var size := |SessionBlock(session)| + |payload|;
            var head := [0xAA, 0x01, command] + Little16(size);
            var tail := Little16(Crc(frame[1..5 + size])) + [0x55];
            |frame| == size + 8 && frame == head + (SessionBlock(session) + payload) + tail
  {
    var content := SessionBlock(session) + payload;
    var frame := EncodeFrame(command, session, payload);
    assert frame[1..5 + |content|] == Body(PROTOCOL_VERSION, command, content);
  }

  lemma SizedAt(head: seq<byte>, size: nat, rest: seq<byte>)
    requires |head| == 3
    ensures ReadLittle16(head + Little16(size) + rest, 3) == size % 65536
  {
    Little16RoundTrip(size);
  }

  lemma SumAt(front: seq<byte>, crc: word)
    ensures ReadLittle16(front + (Little16(crc) + [0x55]), |front|) == crc
  {
    Little16RoundTrip(crc);
  }

  lemma BlockThenPayload(head: seq<byte>, block: seq<byte>, payload: seq<byte>, tail: seq<byte>)
    requires |head| == 5
    ensures var data := head + (block + payload) + tail;
            data[5 + |block|..5 + |block| + |payload|] == payload && data == head + block + (payload + tail)
  {
  }

  lemma LayoutOfParts(frame: seq<byte>, command: byte, block: seq<byte>, payload: seq<byte>, crc: word)
    requires frame == [0xAA, 0x01, command] + Little16(|block| + |payload|) + (block + payload) + (Little16(crc) + [0x55])
    ensures var size := |block| + |payload|;
            && |frame| == size + 8
            && frame[0] == 0xAA && frame[1] == 0x01 && frame[2] == command && frame[size + 7] == 0x55
            && ReadLittle16(frame, 3) == size % 65536 && ReadLittle16(frame, 5 + size) == crc
            && frame[5 + |block|..5 + size] == payload
            && exists head, tail :: |head| == 5 && frame == head + block + tail && |tail| == |payload| + 3
  {
    hide ReadLittle16;
    var size := |block| + |payload|;
    var head, tail := [0xAA, 0x01, command] + Little16(size), Little16(crc) + [0x55];
    SizedAt([0xAA, 0x01, command], size, block + payload + tail);
    assert frame == head + (block + payload + tail);
    SumAt(head + (block + payload), crc);
    BlockThenPayload(head, block, payload, tail);
    assert |head| == 5 && frame == head + block + (payload + tail) && |payload + tail| == |payload| + 3;
  }

  /** Every byte of an encoded frame, by position and in numbers. */
  lemma WireLayout(command: byte, session: Session, payload: seq<byte>)
    ensures var frame := EncodeFrame(command, session, payload);
            var block := if session.InSession? then 4 else 0;
            var size := block + |payload|;
            && |frame| == size + 8
            && frame[0] == 0xAA && frame[1] == 0x01 && frame[2] == command && frame[size + 7] == 0x55
            && ReadLittle16(frame, 3) == size % 65536 && CarriesSession(frame, session)
            && frame[5 + block..5 + size] == payload
            && ReadLittle16(frame, 5 + size) == Crc(frame[1..5 + size])
  {
    hide EncodeFrame, Crc, ReadLittle16;
    FrameParts(command, session, payload);
    var frame, block := EncodeFrame(command, session, payload), SessionBlock(session);
    var crc := Crc(frame[1..5 + |block| + |payload|]);
    LayoutOfParts(frame, command, block, payload, crc);
    if session.InSession? {
      var head: seq<byte>, tail: seq<byte> :| |head| == 5 && frame == head + block + tail && |tail| == |payload| + 3;
      SessionOnWire(session.id, session.requestNr, head, tail);
    }
  }

  // ---- Decoding ----

  function FrameSize(data: seq<byte>): nat
    requires |data| >= 5
  {
    5 + ReadLittle16(data, 3) + 2 + 1
  }

  predicate Complete(data: seq<byte>) {
    |data| >= 5 && |data| >= FrameSize(data)
  }

  /** Start byte, end byte and CRC are as they must be. */
  predicate Intact(data: seq<byte>)
    requires Complete(data)
  {
    var size := FrameSize(data);
    && data[0] == FRAME_START
    && data[size - 1] == FRAME_END
    && Crc(data[1..size - 3]) == Word(data[size - 3], data[size - 2])
  }

  function StripSession(content: seq<byte>, strip: bool): seq<byte> {
    if strip && |content| >= 4 then content[4..] else content
  }

  function DecodeGeneric(data: seq<byte>, strip: bool): Decoded {
    if !Complete(data) then NOTHING
    else if !Intact(data) then NOTHING.(status := Malformed)
    else if data[2] == REPLY_ERROR then NOTHING.(status := Rejected)
    else Decoded(Ok, StripSession(data[5..FrameSize(data) - 3], strip), data[2])
  }

  function DecodeConnectSession(data: seq<byte>): ConnectReply {
    if !Complete(data) then ConnectReply(Incomplete, 0)
    else if !Intact(data) || (data[2] != REPLY_OK && data[2] != REPLY_ERROR) then ConnectReply(Malformed, 0)
    else if data[2] == REPLY_ERROR then ConnectReply(Rejected, 0)
    else ConnectReply(Ok, ReadLittle16(data, 5))
  }

  function DecodeReply(data: seq<byte>): Status {
    if !Complete(data) then Incomplete
    else if !Intact(data) || (data[2] != REPLY_OK && data[2] != REPLY_ERROR) then Malformed
    else if data[2] == REPLY_ERROR then Rejected
    else Ok
  }

  // ---- The three decoders as the codec writes them, each with its own offsets ----

  method ReadFrame(data: seq<byte>, stripSessionBlock: bool) returns (result: Decoded)
    ensures result == DecodeGeneric(data, stripSessionBlock)
  {
    if |data| < 5 { return NOTHING; }
    var length := data[3] as int + 256 * data[4] as int;
    var frameSize := 5 + length + 2 + 1;
    if |data| < frameSize { return NOTHING; }
    var crcOffset := 5 + length;
    var expectedCrc := data[crcOffset] as int + 256 * data[crcOffset + 1] as int;
    var command := data[2];
    var checksum := Compute(data[1..1 + (4 + length)]);
    if data[0] != FRAME_START || data[frameSize - 1] != FRAME_END || checksum != expectedCrc {
      return NOTHING.(status := Malformed);
    }
    if command == REPLY_ERROR { return NOTHING.(status := Rejected); }
    var payload := data[5..5 + length];
    if stripSessionBlock && |payload| >= 4 {
      payload := payload[4..];
    }
    return Decoded(Ok, payload, command);
  }

  method ReadConnectReply(data: seq<byte>) returns (response: ConnectReply)
    ensures response == DecodeConnectSession(data)
  {
    if |data| < 5 { return ConnectReply(Incomplete, 0); }
    var length := data[3] as int + 256 * data[4] as int;
    var frameSize := 5 + length + 2 + 1;
    if |data| < frameSize { return ConnectReply(Incomplete, 0); }
    var crcOffset := 5 + length;
    var expectedCrc := data[crcOffset] as int + 256 * data[crcOffset + 1] as int;
    var command := data[2];
    var checksum := Compute(data[1..1 + (4 + length)]);
    if data[0] != FRAME_START || data[frameSize - 1] != FRAME_END || checksum != expectedCrc
       || (command != REPLY_OK && command != REPLY_ERROR) {
      return ConnectReply(Malformed, 0);
    }
    if command == REPLY_ERROR { return ConnectReply(Rejected, 0); }
    return ConnectReply(Ok, data[5] as int + 256 * data[6] as int);
  }

  method ReadGenericReply(data: seq<byte>) returns (status: Status)
    ensures status == DecodeReply(data)
  {
    if |data| < 5 { return Incomplete; }
    var length := data[3] as int + 256 * data[4] as int;
    var frameSize := 5 + length + 2 + 1;
    if |data| < frameSize { return Incomplete; }
    var crcOffset := 5 + length;
    var expectedCrc := data[crcOffset] as int + 256 * data[crcOffset + 1] as int;
    var command := data[2];
    var checksum := Compute(data[1..1 + (4 + length)]);
    if data[0] != FRAME_START || data[frameSize - 1] != FRAME_END || checksum != expectedCrc
       || (command != REPLY_OK && command != REPLY_ERROR) {
      return Malformed;
    }
    return if command == REPLY_ERROR then Rejected else Ok;
  }

  // ---- Printing and decoding are inverse ----

  lemma WrapShape(version: byte, command: byte, content: seq<byte>, rest: seq<byte>)
    requires |content| < 65536
    ensures var data := Wrap(version, command, content) + rest;
            && |Wrap(version, command, content)| == |content| + 8
            && |data| >= 5 && FrameSize(data) == |content| + 8 && Complete(data) && Intact(data)
            && data[1] == version && data[2] == command && data[5..FrameSize(data) - 3] == content
  {
    var body := Body(version, command, content);
    var data := Wrap(version, command, content) + rest;
    LengthField(version, command, content, rest);
    assert data[1..FrameSize(data) - 3] == body;
    Little16RoundTrip(Crc(body));
  }

  /** What every decoder answers on a printed frame, whatever follows it. */
  lemma DecodeWrapped(version: byte, command: byte, content: seq<byte>, rest: seq<byte>, strip: bool)
    requires |content| < 65536
    ensures var data := Wrap(version, command, content) + rest;
            && DecodeGeneric(data, strip) ==
               (if command == REPLY_ERROR then NOTHING.(status := Rejected)
                else Decoded(Ok, StripSession(content, strip), command))
            && DecodeReply(data) ==
               (if command == REPLY_OK then Ok else if command == REPLY_ERROR then Rejected else Malformed)
            && (command == REPLY_OK && |content| >= 2 ==>
                DecodeConnectSession(data) == ConnectReply(Ok, ReadLittle16(content, 0)))
  {
    WrapShape(version, command, content, rest);
    var data := Wrap(version, command, content) + rest;
    if |content| >= 2 {
      assert data[5..FrameSize(data) - 3][0] == content[0] && data[5..FrameSize(data) - 3][1] == content[1];
    }
  }

  /** A frame the decoder accepts is one the printer would have produced. */
  lemma AcceptedIsWrapped(data: seq<byte>)
    requires Complete(data) && Intact(data)
    ensures var size := FrameSize(data);
            && size - 8 < 65536
            && data[..size] == Wrap(data[1], data[2], data[5..size - 3])
  {
    var size := FrameSize(data);
    var content := data[5..size - 3];
    var body := data[1..size - 3];
    BytesOfLittle16(data[3], data[4]);
    assert Little16(|content|) == [data[3], data[4]];
    assert body == Body(data[1], data[2], content);
    BytesOfLittle16(data[size - 3], data[size - 2]);
    assert Little16(Crc(body)) == [data[size - 3], data[size - 2]];
    assert data[..size] == [data[0]] + body + [data[size - 3], data[size - 2]] + [data[size - 1]];
  }

  /** `data` starts with a printed frame of this command and content. */
  ghost predicate Begins(data: seq<byte>, version: byte, command: byte, content: seq<byte>) {
    |content| < 65536 && Wrap(version, command, content) <= data
  }

  lemma BeginsIsAccepted(data: seq<byte>, strip: bool, version: byte, command: byte, content: seq<byte>)
    requires Begins(data, version, command, content) && command != REPLY_ERROR
    ensures DecodeGeneric(data, strip) == Decoded(Ok, StripSession(content, strip), command)
  {
    var frame := Wrap(version, command, content);
    assert data == frame + data[|frame|..];
    DecodeWrapped(version, command, content, data[|frame|..], strip);
  }

  lemma AcceptedBegins(data: seq<byte>, strip: bool)
    requires DecodeGeneric(data, strip).status == Ok
    ensures Begins(data, data[1], data[2], data[5..FrameSize(data) - 3])
  {
    AcceptedIsWrapped(data);
  }

  /** The generic decoder accepts exactly what starts with a printed non-error frame, and returns what was printed. */
  lemma DecodeGenericExact(data: seq<byte>, strip: bool, command: byte, payload: seq<byte>)
    ensures DecodeGeneric(data, strip) == Decoded(Ok, payload, command) <==>
            command != REPLY_ERROR &&
            exists version, content ::
              Begins(data, version, command, content) && payload == StripSession(content, strip)
  {
    if DecodeGeneric(data, strip) == Decoded(Ok, payload, command) {
      AcceptedBegins(data, strip);
    }
    if command != REPLY_ERROR {
      forall version, content | Begins(data, version, command, content)
        ensures DecodeGeneric(data, strip) == Decoded(Ok, StripSession(content, strip), command)
      {
        BeginsIsAccepted(data, strip, version, command, content);
      }
    }
  }

  /** The data starts with some printed frame of this command. */
  ghost predicate BeginsWith(data: seq<byte>, command: byte) {
    exists version, content :: Begins(data, version, command, content)
  }

  lemma BeginsDecides(data: seq<byte>, command: byte)
    requires BeginsWith(data, command)
    ensures Complete(data) && Intact(data) && data[2] == command
  {
    var version, content :| Begins(data, version, command, content);
    var frame := Wrap(version, command, content);
    assert data == frame + data[|frame|..];
    WrapShape(version, command, content, data[|frame|..]);
  }

  /**
   One frame specification for all three decoders: each answer is a statement about the printed frame the
   data starts with, and the copies differ from the generic decoder only on commands that are not reply codes.
   */
  lemma DecodersAgree(data: seq<byte>, strip: bool)
    ensures DecodeGeneric(data, strip).status == Rejected <==> BeginsWith(data, REPLY_ERROR)
    ensures DecodeReply(data) == Rejected <==> BeginsWith(data, REPLY_ERROR)
    ensures DecodeReply(data) == Ok <==> BeginsWith(data, REPLY_OK)
    ensures DecodeConnectSession(data).status == DecodeReply(data)
    ensures DecodeReply(data) == DecodeGeneric(data, strip).status
            <==> DecodeGeneric(data, strip).status != Ok || BeginsWith(data, REPLY_OK)
    ensures DecodeReply(data) ==
            var generic := DecodeGeneric(data, strip);
            if generic.status == Ok && generic.command != REPLY_OK then Malformed else generic.status
  {
    if Complete(data) && Intact(data) {
      AcceptedIsWrapped(data);
      assert Begins(data, data[1], data[2], data[5..FrameSize(data) - 3]);
      assert BeginsWith(data, data[2]);
    }
    if BeginsWith(data, REPLY_ERROR) {
      BeginsDecides(data, REPLY_ERROR);
    }
    if BeginsWith(data, REPLY_OK) {
      BeginsDecides(data, REPLY_OK);
    }
  }

  lemma LengthField(version: byte, command: byte, content: seq<byte>, rest: seq<byte>)
    ensures var data := Wrap(version, command, content) + rest;
            |data| >= 5 && ReadLittle16(data, 3) == |content| % 65536
  {
    var data := Wrap(version, command, content) + rest;
    assert data[3] == Little16(|content|)[0] && data[4] == Little16(|content|)[1];
    Little16RoundTrip(|content|);
  }

  /** Encoding and decoding is the identity exactly when the length field can hold the content's size. */
  lemma RoundTripIff(command: byte, session: Session, payload: seq<byte>, rest: seq<byte>)
    requires command != REPLY_ERROR
    ensures DecodeGeneric(EncodeFrame(command, session, payload) + rest, session.InSession?) ==
            Decoded(Ok, payload, command)
            <==> |SessionBlock(session)| + |payload| < 65536
  {
    var content := SessionBlock(session) + payload;
    assert StripSession(content, session.InSession?) == payload;
    if |content| < 65536 {
      DecodeWrapped(PROTOCOL_VERSION, command, content, rest, session.InSession?);
    } else {
      var data := EncodeFrame(command, session, payload) + rest;
      LengthField(PROTOCOL_VERSION, command, content, rest);
      if DecodeGeneric(data, session.InSession?).status == Ok {
        PayloadFits(data, session.InSession?);
      }
    }
  }

  lemma PayloadFits(data: seq<byte>, strip: bool)
    requires DecodeGeneric(data, strip).status == Ok
    ensures |DecodeGeneric(data, strip).payload| <= ReadLittle16(data, 3)
    ensures strip && ReadLittle16(data, 3) >= 4 ==> |DecodeGeneric(data, strip).payload| == ReadLittle16(data, 3) - 4
  {
  }

  // ---- Self-delimitation ----

  /** `data` is as long as its own length field says, no more and no less; nothing is said about its content. */
  predicate OneFrame(data: seq<byte>) {
    |data| >= 5 && |data| == FrameSize(data)
  }

  lemma PrefixIncomplete(frame: seq<byte>, n: nat, strip: bool)
    requires OneFrame(frame) && n < |frame|
    ensures !Complete(frame[..n])
    ensures DecodeGeneric(frame[..n], strip) == NOTHING
    ensures DecodeReply(frame[..n]) == Incomplete
    ensures DecodeConnectSession(frame[..n]).status == Incomplete
  {
    if n >= 5 {
      assert FrameSize(frame[..n]) == FrameSize(frame);
    }
  }

  // ---- Corruption ----

  lemma IntactResidue(frame: seq<byte>)
    requires OneFrame(frame) && Intact(frame)
    ensures frame[0] == FRAME_START && frame[|frame| - 1] == FRAME_END && Crc(frame[1..|frame| - 1]) == 0
  {
    var size := |frame|;
    assert frame[1..size - 1] == frame[1..size - 3] + [frame[size - 3], frame[size - 2]];
    CrcResidue(frame[1..size - 3], frame[size - 3], frame[size - 2]);
  }

  lemma BurstBreaksIntact(frame: seq<byte>, received: seq<byte>, at: nat)
    requires OneFrame(frame) && Intact(frame) && OneFrame(received) && |received| == |frame| && received != frame
    requires AgreeOutsideBurst(MessageBits(frame), MessageBits(received), at)
    ensures !Intact(received)
  {
    IntactResidue(frame);
    if Intact(received) {
      IntactResidue(received);
      BurstChangesInnerCrc(frame, received, at);
    }
  }

  lemma IntactIgnoresRest(frame: seq<byte>, rest: seq<byte>)
    requires OneFrame(frame)
    ensures |frame + rest| >= 5 && FrameSize(frame + rest) == |frame| && (Intact(frame + rest) <==> Intact(frame))
  {
    assert (frame + rest)[1..|frame| - 3] == frame[1..|frame| - 3];
  }

  /**
   Any change confined to sixteen consecutive bits of a printed frame, outside its length field,
   makes every decoder answer Malformed, whatever follows the frame.
   */
  lemma BurstCaught(version: byte, command: byte, content: seq<byte>, received: seq<byte>, at: nat, rest: seq<byte>,
                    strip: bool)
    requires |content| < 65536
    requires var frame := Wrap(version, command, content);
             && |received| == |frame| && received != frame && received[3..5] == frame[3..5]
             && AgreeOutsideBurst(MessageBits(frame), MessageBits(received), at)
    ensures DecodeGeneric(received + rest, strip).status == Malformed
    ensures DecodeReply(received + rest) == Malformed
    ensures DecodeConnectSession(received + rest).status == Malformed
  {
    var frame := Wrap(version, command, content);
    WrapShape(version, command, content, []);
    assert frame + [] == frame;
    assert received[3] == received[3..5][0] == frame[3] && received[4] == received[3..5][1] == frame[4];
    BurstBreaksIntact(frame, received, at);
    IntactIgnoresRest(received, rest);
  }

  /** Changing one byte, or two adjacent bytes, outside the length field is always caught. */
  lemma AdjacentBytesCaught(version: byte, command: byte, content: seq<byte>, received: seq<byte>, i: nat,
                            rest: seq<byte>, strip: bool)
    requires |content| < 65536
    requires var frame := Wrap(version, command, content);
             && |received| == |frame| && received != frame && received[3..5] == frame[3..5]
             && i + 2 <= |frame| && received[..i] == frame[..i] && received[i + 2..] == frame[i + 2..]
    ensures DecodeGeneric(received + rest, strip).status == Malformed
    ensures DecodeReply(received + rest) == Malformed
    ensures DecodeConnectSession(received + rest).status == Malformed
  {
    AdjacentBytesAreBurst(Wrap(version, command, content), received, i);
    BurstCaught(version, command, content, received, 8 * i, rest, strip);
  }
}
