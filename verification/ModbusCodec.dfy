/**
 Modbus TCP: MBAP framing, coil packing, the request encoders and the response decoders.

 The eight decoders share one header check and three body shapes: registers, bits, and an echo of two words.
 */
module ModbusCodec {
  import opened Bits
  import opened BitStream
  import opened Bytes
  import opened Wrappers

  // ---- Coils ----

  function Min(a: nat, b: nat): nat {
    if a < b then a else b
  }

  function Zeros(n: nat): seq<bool> {
    seq(n, i => false)
  }

  function PackByte(bits: seq<bool>): byte
    requires |bits| <= 8
  {
    Widths();
    FromBitsBound(bits + Zeros(8 - |bits|));
    FromBits(bits + Zeros(8 - |bits|))
  }

  /** Coil i is bit i % 8 of byte i / 8; the last byte is padded with zeros. */
  function PackBits(values: seq<bool>): (packed: seq<byte>)
    ensures |packed| == (|values| + 7) / 8
  {
    if values == [] then [] else
    var n := Min(8, |values|);
    [PackByte(values[..n])] + PackBits(values[n..])
  }

  lemma {:induction false} PackBitsAt(values: seq<bool>, j: nat, k: nat)
    requires j < |PackBits(values)| && k < 8
    ensures Bit(PackBits(values)[j], k) <==> 8 * j + k < |values| && values[8 * j + k]
  {
    var n := Min(8, |values|);
    if j == 0 {
      BitOfFromBits(values[..n] + Zeros(8 - n), k);
    } else {
      PackBitsAt(values[n..], j - 1, k);
    }
  }

  function WithBit(b: byte, k: nat): byte
    requires k < 8
  {
    if Bit(b, k) then b else Widths(); AddBit(b, k, 8); b + Pow2(k)
  }

  /** The loop of the codec: every true coil sets its bit in a zeroed buffer. */
  method Pack(values: seq<bool>) returns (packed: seq<byte>)
    ensures packed == PackBits(values)
  {
    var buffer := new byte[(|values| + 7) / 8](_ => 0);
    assert forall j | 0 <= j < buffer.Length :: buffer[j] == 0;
    forall k: nat ensures !Bit(0, k) {
      BitOfZero(k);
    }
    for i := 0 to |values|
      invariant forall j, k: nat | 0 <= j < buffer.Length && k < 8 ::
                  Bit(buffer[j], k) <==> 8 * j + k < i && values[8 * j + k]
    {
      if values[i] {
        ghost var before := buffer[..];
        Widths();
        if !Bit(buffer[i / 8], i % 8) {
          AddBit(buffer[i / 8], i % 8, 8);
        }
        buffer[i / 8] := WithBit(buffer[i / 8], i % 8);
        assert forall j | 0 <= j < buffer.Length && j != i / 8 :: buffer[j] == before[j];
        forall j, k: nat | 0 <= j < buffer.Length && k < 8
          ensures Bit(buffer[j], k) <==> 8 * j + k < i + 1 && values[8 * j + k]
        {
          assert Bit(before[j], k) <==> 8 * j + k < i && values[8 * j + k];
        }
      }
    }
    packed := buffer[..];
    forall j | 0 <= j < |packed| ensures packed[j] == PackBits(values)[j] {
      forall k: nat | k < 8 ensures Bit(packed[j], k) == Bit(PackBits(values)[j], k) {
        PackBitsAt(values, j, k);
      }
      Widths();
      BitsDetermine(packed[j], PackBits(values)[j], 8);
    }
  }

  method Unpack(data: seq<byte>, offset: nat, byteCount: nat) returns (bits: seq<bool>)
    requires offset + byteCount <= |data|
    ensures bits == MessageBits(data[offset..offset + byteCount])
  {
    bits := [];
    for i := 0 to byteCount
      invariant bits == MessageBits(data[offset..offset + i])
    {
      var b := data[offset + i];
      ghost var start := bits;
      for bit := 0 to 8
        invariant bits == start + ByteBits(b)[..bit]
      {
        bits := bits + [Bit(b, bit)];
      }
      assert data[offset..offset + i + 1][..i] == data[offset..offset + i];
    }
  }

  lemma {:induction false} MessageBitsAt(data: seq<byte>, j: nat, k: nat)
    requires j < |data| && k < 8
    ensures 8 * j + k < |MessageBits(data)| && (MessageBits(data)[8 * j + k] <==> Bit(data[j], k))
  {
    var n := |data| - 1;
    if j < n {
      MessageBitsAt(data[..n], j, k);
    }
  }

  /** How many padding bits complete the last byte. */
  function Padding(n: nat): (p: nat)
    ensures p < 8 && (n + p) % 8 == 0 && n + p == 8 * ((n + 7) / 8)
  {
    8 * ((n + 7) / 8) - n
  }

  lemma UnpackPackedAt(values: seq<bool>, i: nat)
    requires i < 8 * |PackBits(values)|
    ensures MessageBits(PackBits(values))[i] <==> i < |values| && values[i]
  {
    MessageBitsAt(PackBits(values), i / 8, i % 8);
    PackBitsAt(values, i / 8, i % 8);
  }

  lemma PaddedEqual(bits: seq<bool>, values: seq<bool>, padding: nat)
    requires |bits| == |values| + padding && forall i | 0 <= i < |bits| :: bits[i] <==> i < |values| && values[i]
    ensures bits == values + Zeros(padding)
  {
  }

  /** Unpacking packed coils gives the coils back, followed only by false up to a multiple of eight. */
  lemma UnpackPacked(values: seq<bool>)
    ensures MessageBits(PackBits(values)) == values + Zeros(Padding(|values|))
  {
    var bits := MessageBits(PackBits(values));
    forall i | 0 <= i < |bits| ensures bits[i] <==> i < |values| && values[i] {
      UnpackPackedAt(values, i);
    }
    PaddedEqual(bits, values, Padding(|values|));
  }

  /** Packing unpacked bytes gives the bytes back. */
  lemma PackUnpacked(data: seq<byte>)
    ensures PackBits(MessageBits(data)) == data
  {
    UnpackPacked(MessageBits(data));
    assert Zeros(Padding(|MessageBits(data)|)) == [];
    assert MessageBits(PackBits(MessageBits(data))) == MessageBits(data);
    MessageBitsInjective(PackBits(MessageBits(data)), data);
  }

  // ---- Requests ----

  datatype Kind =
    | ReadHoldingRegisters | ReadInputRegisters | ReadCoils | ReadDiscreteInputs
    | WriteSingleRegister | WriteSingleCoil | WriteMultipleRegisters | WriteMultipleCoils

  function Code(kind: Kind): byte {
    match kind
    case ReadHoldingRegisters => 0x03
    case ReadInputRegisters => 0x04
    case ReadCoils => 0x01
    case ReadDiscreteInputs => 0x02
    case WriteSingleRegister => 0x06
    case WriteSingleCoil => 0x05
    case WriteMultipleRegisters => 0x10
    case WriteMultipleCoils => 0x0F
  }

  /** What is asked: two words for the fixed-size functions, a list for the multiple writes. */
  datatype Request =
    | Fixed(kind: Kind, unit: byte, address: word, argument: word)
    | Registers(unit: byte, address: word, values: seq<word>)
    | Coils(unit: byte, address: word, coils: seq<bool>)

  function KindOf(request: Request): Kind {
    match request
    case Fixed(kind, _, _, _) => kind
    case Registers(_, _, _) => WriteMultipleRegisters
    case Coils(_, _, _) => WriteMultipleCoils
  }

  /** A coil is written as 0xFF00 or 0x0000. */
  function CoilWord(on: bool): word {
    if on then 0xFF00 else 0x0000
  }

  function RegisterBytes(values: seq<word>): (bytes: seq<byte>)
    ensures |bytes| == 2 * |values|
  {
    if |values| == 0 then [] else Big16(values[0]) + RegisterBytes(values[1..])
  }

  /** MBAP header and unit, then the function's own bytes; the length field keeps sixteen bits. */
  function Adu(transaction: int, unit: byte, pdu: seq<byte>): seq<byte> {
    Big16(transaction) + Big16(0) + Big16(1 + |pdu|) + [unit] + pdu
  }

  /** Start address, number of items, size of the data, data; the size field keeps eight bits. */
  function MultiplePdu(kind: Kind, address: word, count: nat, data: seq<byte>): seq<byte> {
    [Code(kind)] + Big16(address) + Big16(count) + [Byte(|data|)] + data
  }

  function RequestPdu(request: Request): seq<byte> {
    match request
    case Fixed(kind, _, address, argument) => [Code(kind)] + Big16(address) + Big16(argument)
    case Registers(_, address, values) => MultiplePdu(WriteMultipleRegisters, address, |values|, RegisterBytes(values))
    case Coils(_, address, coils) => MultiplePdu(WriteMultipleCoils, address, |coils|, PackBits(coils))
  }

  function Encode(request: Request, transaction: int): seq<byte> {
    Adu(transaction, request.unit, RequestPdu(request))
  }

  function MultipleHead(kind: Kind, transaction: int, unit: byte, address: word, count: nat, size: nat): seq<byte> {
    Big16(transaction) + Big16(0) + Big16(7 + size) + [unit] + [Code(kind)] + Big16(address) + Big16(count) +
      [Byte(size)]
  }

  lemma HeadThenData(kind: Kind, transaction: int, unit: byte, address: word, count: nat, data: seq<byte>)
    ensures Adu(transaction, unit, MultiplePdu(kind, address, count, data)) ==
            MultipleHead(kind, transaction, unit, address, count, |data|) + data
  {
  }

  method AppendRegisters(head: seq<byte>, values: seq<word>) returns (data: seq<byte>)
    ensures data == head + RegisterBytes(values)
  {
    data := head;
    for i := 0 to |values|
      invariant data + RegisterBytes(values[i..]) == head + RegisterBytes(values)
    {
      data := data + Big16(values[i]);
      assert values[i..][1..] == values[i + 1..];
    }
  }

  method EncodeRegisters(unit: byte, address: word, values: seq<word>, transaction: word) returns (data: seq<byte>)
    ensures data == Encode(Registers(unit, address, values), transaction)
  {
    var byteCount := |values| * 2;
    data := Big16(transaction);
    data := data + Big16(0);
    data := data + Big16(7 + byteCount);
    data := data + [unit];
    data := data + [0x10];
    data := data + Big16(address);
    data := data + Big16(|values|);
    data := data + [Byte(byteCount)];
    data := AppendRegisters(data, values);
    HeadThenData(WriteMultipleRegisters, transaction, unit, address, |values|, RegisterBytes(values));
  }

  method EncodeCoils(unit: byte, address: word, coils: seq<bool>, transaction: word) returns (data: seq<byte>)
    ensures data == Encode(Coils(unit, address, coils), transaction)
  {
    var packed := Pack(coils);
    data := Big16(transaction);
    data := data + Big16(0);
    data := data + Big16(7 + |packed|);
    data := data + [unit];
    data := data + [0x0F];
    data := data + Big16(address);
    data := data + Big16(|coils|);
    data := data + [Byte(|packed|)];
    data := data + packed;
    HeadThenData(WriteMultipleCoils, transaction, unit, address, |coils|, packed);
  }

  // ---- What a server reads ----

  /** Every request starts with its transaction, and carries its unit and function code where the header puts them. */
  lemma EncodedHead(request: Request, transaction: int)
    ensures var frame := Encode(request, transaction);
            && |frame| >= 8 && ReadBig16(frame, 0) == transaction % 65536 && ReadBig16(frame, 2) == 0
            && frame[6] == request.unit && frame[7] == Code(KindOf(request))
  {
    hide PackBits, RegisterBytes;
    var pdu, frame := RequestPdu(request), Encode(request, transaction);
    Big16RoundTrip(transaction);
    assert frame[7] == pdu[0];
  }

  /** The function codes of the Modbus application protocol. */
  lemma CodesOnWire(request: Request, transaction: int)
    ensures |Encode(request, transaction)| >= 8
    ensures Encode(request, transaction)[7] ==
            match KindOf(request)
            case ReadCoils => 1
            case ReadDiscreteInputs => 2
            case ReadHoldingRegisters => 3
            case ReadInputRegisters => 4
            case WriteSingleCoil => 5
            case WriteSingleRegister => 6
            case WriteMultipleCoils => 15
            case WriteMultipleRegisters => 16
  {
    hide Encode;
    EncodedHead(request, transaction);
  }

  /**
   A fixed-size request is twelve bytes, its length field is exact, and every field is where the server looks for it.
   */
  lemma FixedRequestExact(kind: Kind, unit: byte, address: word, argument: word, transaction: word)
    ensures var frame := Encode(Fixed(kind, unit, address, argument), transaction);
            && |frame| == 12 && ReadBig16(frame, 0) == transaction && ReadBig16(frame, 2) == 0
            && ReadBig16(frame, 4) == |frame| - 6 && frame[6] == unit && frame[7] == Code(kind)
            && ReadBig16(frame, 8) == address && ReadBig16(frame, 10) == argument
  {
    Big16RoundTrip(transaction);
    Big16RoundTrip(address);
    Big16RoundTrip(argument);
  }

  datatype Written = Written(address: int, count: int, data: seq<byte>)

  /** An independent reading: every size field must agree with the bytes that are there. */
  function ServerReads(kind: Kind, frame: seq<byte>): Option<Written> {
    if |frame| >= 13 && ReadBig16(frame, 2) == 0 && ReadBig16(frame, 4) == |frame| - 6
       && frame[7] == Code(kind) && frame[12] == |frame| - 13
    then Some(Written(ReadBig16(frame, 8), ReadBig16(frame, 10), frame[13..]))
    else None
  }

  lemma MultipleFields(kind: Kind, transaction: int, unit: byte, address: word, count: nat, data: seq<byte>)
    ensures var frame := Adu(transaction, unit, MultiplePdu(kind, address, count, data));
            && |frame| == 13 + |data| && ReadBig16(frame, 2) == 0 && ReadBig16(frame, 4) == (7 + |data|) % 65536
            && frame[7] == Code(kind) && frame[12] == |data| % 256
            && ReadBig16(frame, 8) == address && ReadBig16(frame, 10) == count % 65536 && frame[13..] == data
  {
    var pdu := MultiplePdu(kind, address, count, data);
    var frame := Adu(transaction, unit, pdu);
    assert frame[7..] == pdu;
    Big16RoundTrip(1 + |pdu|);
    Big16RoundTrip(address);
    Big16RoundTrip(count);
    assert frame[4] == Big16(1 + |pdu|)[0] && frame[5] == Big16(1 + |pdu|)[1];
    assert frame[8] == pdu[1] == Big16(address)[0] && frame[9] == pdu[2] == Big16(address)[1];
    assert frame[10] == pdu[3] == Big16(count)[0] && frame[11] == pdu[4] == Big16(count)[1];
    assert frame[12] == pdu[5];
    assert frame[13..] == pdu[6..];
  }

  /**
   The size fields of a multiple write are exact, and the server reads what was sent, exactly up to 255 data bytes.
   */
  lemma MultipleWriteExactIff(kind: Kind, transaction: int, unit: byte, address: word, count: word, data: seq<byte>)
    ensures var frame := Adu(transaction, unit, MultiplePdu(kind, address, count, data));
            ServerReads(kind, frame) == Some(Written(address, count, data)) <==> |data| <= 255
  {
    MultipleFields(kind, transaction, unit, address, count, data);
  }

  /**
   Within the limits of the Modbus specification the server reads the registers sent, and the frame fits 260 bytes.
   */
  lemma RegistersWithinLimits(transaction: word, unit: byte, address: word, values: seq<word>)
    requires 1 <= |values| <= 123
    ensures var frame := Encode(Registers(unit, address, values), transaction);
            && |frame| <= 260
            && ServerReads(WriteMultipleRegisters, frame) == Some(Written(address, |values|, RegisterBytes(values)))
            && forall i | 0 <= i < |values| :: ReadBig16(RegisterBytes(values), 2 * i) == values[i]
  {
    MultipleWriteExactIff(WriteMultipleRegisters, transaction, unit, address, |values|, RegisterBytes(values));
    MultipleFields(WriteMultipleRegisters, transaction, unit, address, |values|, RegisterBytes(values));
    forall i | 0 <= i < |values| ensures ReadBig16(RegisterBytes(values), 2 * i) == values[i] {
      RegisterBytesAt(values, i);
    }
  }

  lemma {:induction false} RegisterBytesAt(values: seq<word>, i: nat)
    requires i < |values|
    ensures ReadBig16(RegisterBytes(values), 2 * i) == values[i]
  {
    if i == 0 {
      Big16RoundTrip(values[0]);
    } else {
      RegisterBytesAt(values[1..], i - 1);
    }
  }

  /** Within the limits of the Modbus specification the server unpacks the coils sent, and the frame fits 260 bytes. */
  lemma CoilsWithinLimits(transaction: word, unit: byte, address: word, coils: seq<bool>)
    requires 1 <= |coils| <= 1968
    ensures var frame := Encode(Coils(unit, address, coils), transaction);
            && |frame| <= 260
            && ServerReads(WriteMultipleCoils, frame) == Some(Written(address, |coils|, PackBits(coils)))
            && coils <= MessageBits(PackBits(coils))
  {
    MultipleWriteExactIff(WriteMultipleCoils, transaction, unit, address, |coils|, PackBits(coils));
    MultipleFields(WriteMultipleCoils, transaction, unit, address, |coils|, PackBits(coils));
    UnpackPacked(coils);
  }

  // ---- Responses ----

  datatype Reply =
    | Incomplete | Malformed | Exception(code: byte)
    | RegisterValues(registers: seq<word>) | BitValues(bits: seq<bool>) | Echo(first: word, second: word)

  datatype Shape = RegisterShape | BitShape | EchoShape

  function ShapeOf(kind: Kind): Shape {
    match kind
    case ReadHoldingRegisters => RegisterShape
    case ReadInputRegisters => RegisterShape
    case ReadCoils => BitShape
    case ReadDiscreteInputs => BitShape
    case _ => EchoShape
  }

  function Word(high: byte, low: byte): word {
    256 * (high as int) + low as int
  }

  /** The whole big-endian words of `data`. */
  function Words(data: seq<byte>): (words: seq<word>)
    ensures |words| == |data| / 2
  {
    if |data| < 2 then [] else [Word(data[0], data[1])] + Words(data[2..])
  }

  lemma WordsStep(data: seq<byte>, index: nat, end: nat)
    requires index + 2 <= end <= |data|
    ensures Words(data[index..end]) == [ReadBig16(data, index)] + Words(data[index + 2..end])
  {
    assert data[index..end][2..] == data[index + 2..end];
  }

  lemma WordsOfNothing(data: seq<byte>)
    requires data == []
    ensures Words(data) == []
  {
  }

  method ReadWords(data: seq<byte>, at: nat, byteCount: nat) returns (words: seq<word>)
    requires byteCount % 2 == 0 && at + byteCount <= |data|
    ensures words == Words(data[at..at + byteCount])
  {
    hide Words;
    words := [];
    var index := at;
    var end := at + byteCount;
    ghost var all, left := Words(data[at..end]), byteCount / 2;
    while index < end
      invariant at <= index <= end && end - index == 2 * left
      invariant words + Words(data[index..end]) == all
    {
      var next := ReadBig16(data, index);
      WordsStep(data, index, end);
      assert words + ([next] + Words(data[index + 2..end])) == words + [next] + Words(data[index + 2..end]);
      words := words + [next];
      index, left := index + 2, left - 1;
    }
    WordsOfNothing(data[end..end]);
  }

  predicate MbapComplete(data: seq<byte>) {
    |data| >= 8 && |data| >= 6 + ReadBig16(data, 4)
  }

  /** A response, function code first, read as an answer to function `kind`. */
  function DecodePdu(kind: Kind, pdu: seq<byte>): Reply
    requires |pdu| >= 1
  {
    if pdu[0] >= 128 then if |pdu| < 2 then Malformed else Exception(pdu[1])
    else if pdu[0] != Code(kind) then Malformed
    else match ShapeOf(kind)
      case RegisterShape =>
        if |pdu| < 2 || pdu[1] % 2 != 0 || |pdu| != 2 + pdu[1] as int then Malformed
        else RegisterValues(Words(pdu[2..]))
      case BitShape =>
        if |pdu| < 2 || |pdu| != 2 + pdu[1] as int then Malformed else BitValues(MessageBits(pdu[2..]))
      case EchoShape =>
        if |pdu| != 5 then Malformed else Echo(ReadBig16(pdu, 1), ReadBig16(pdu, 3))
  }

  function Decode(kind: Kind, data: seq<byte>): Reply {
    if !MbapComplete(data) then Incomplete
    else if ReadBig16(data, 2) != 0 || ReadBig16(data, 4) < 2 then Malformed
    else DecodePdu(kind, data[7..6 + ReadBig16(data, 4)])
  }

  /** What the bodies of the decoders are given: a complete frame that is no exception. */
  predicate HeaderPassed(data: seq<byte>, length: int) {
    |data| >= 8 && 2 <= length == ReadBig16(data, 4) && 6 + length <= |data| && data[7] < 128
  }

  method DecodeRegistersBody(kind: Kind, data: seq<byte>, length: int) returns (reply: Reply)
    requires HeaderPassed(data, length) && ShapeOf(kind) == RegisterShape
    ensures reply == DecodePdu(kind, data[7..6 + length])
  {
    ghost var pdu := data[7..6 + length];
    assert length >= 3 ==> pdu[1] == data[8];
    if data[7] != Code(kind) || length < 3 { return Malformed; }
    var byteCount := data[8] as int;
    if byteCount % 2 != 0 || length != 3 + byteCount { return Malformed; }
    assert pdu[2..] == data[9..9 + byteCount];
    var registers := ReadWords(data, 9, byteCount);
    return RegisterValues(registers);
  }

  method DecodeBitsBody(kind: Kind, data: seq<byte>, length: int) returns (reply: Reply)
    requires HeaderPassed(data, length) && ShapeOf(kind) == BitShape
    ensures reply == DecodePdu(kind, data[7..6 + length])
  {
    ghost var pdu := data[7..6 + length];
    assert length >= 3 ==> pdu[1] == data[8];
    if data[7] != Code(kind) || length < 3 { return Malformed; }
    var byteCount := data[8] as int;
    if length != 3 + byteCount { return Malformed; }
    assert pdu[2..] == data[9..9 + byteCount];
    var bits := Unpack(data, 9, byteCount);
    return BitValues(bits);
  }

  method DecodeEchoBody(kind: Kind, data: seq<byte>, length: int) returns (reply: Reply)
    requires HeaderPassed(data, length) && ShapeOf(kind) == EchoShape
    ensures reply == DecodePdu(kind, data[7..6 + length])
  {
    ghost var pdu := data[7..6 + length];
    if data[7] != Code(kind) || length != 6 { return Malformed; }
    assert pdu[1] == data[8] && pdu[2] == data[9] && pdu[3] == data[10] && pdu[4] == data[11];
    return Echo(ReadBig16(data, 8), ReadBig16(data, 10));
  }

  /** The decoders as the codec writes them, by positions in the buffer. */
  method DecodeResponse(kind: Kind, data: seq<byte>) returns (reply: Reply)
    ensures reply == Decode(kind, data)
  {
    if |data| < 8 { return Incomplete; }
    var length := ReadBig16(data, 4);
    if |data| < 6 + length { return Incomplete; }
    if ReadBig16(data, 2) != 0 || length < 2 { return Malformed; }
    ghost var pdu := data[7..6 + length];
    if data[7] >= 128 {
      if length < 3 { return Malformed; }
      assert pdu[1] == data[8];
      return Exception(data[8]);
    }
    match ShapeOf(kind)
    case RegisterShape => reply := DecodeRegistersBody(kind, data, length);
    case BitShape => reply := DecodeBitsBody(kind, data, length);
    case EchoShape => reply := DecodeEchoBody(kind, data, length);
  }

  /** The bytes a server answers with. */
  function ReplyPdu(kind: Kind, reply: Reply): seq<byte> {
    match reply
    case RegisterValues(registers) => [Code(kind), Byte(2 * |registers|)] + RegisterBytes(registers)
    case BitValues(bits) => [Code(kind), Byte(|bits| / 8)] + PackBits(bits)
    case Echo(first, second) => [Code(kind)] + Big16(first) + Big16(second)
    case Exception(code) => [Code(kind) + 128, code]
    case _ => []
  }

  /** A positive reply of the function's own shape that the size field can describe. */
  predicate Positive(kind: Kind, reply: Reply) {
    match ShapeOf(kind)
    case RegisterShape => reply.RegisterValues? && |reply.registers| <= 127
    case BitShape => reply.BitValues? && |reply.bits| % 8 == 0 && |reply.bits| / 8 <= 255
    case EchoShape => reply.Echo?
  }

  lemma WordOfBig16(value: word)
    ensures |Big16(value)| == 2 && Word(Big16(value)[0], Big16(value)[1]) == value
  {
    Big16RoundTrip(value);
  }

  lemma {:induction false} WordsOfRegisterBytes(values: seq<word>)
    ensures Words(RegisterBytes(values)) == values
  {
    if values != [] {
      WordsOfRegisterBytes(values[1..]);
      WordOfBig16(values[0]);
      assert RegisterBytes(values)[2..] == RegisterBytes(values[1..]);
    }
  }

  lemma Big16OfWord(high: byte, low: byte)
    ensures Big16(Word(high, low)) == [high, low]
  {
    BytesOfBig16(high, low);
  }

  lemma {:induction false} RegisterBytesOfWords(data: seq<byte>)
    requires |data| % 2 == 0
    ensures RegisterBytes(Words(data)) == data
  {
    if data != [] {
      RegisterBytesOfWords(data[2..]);
      Big16OfWord(data[0], data[1]);
      assert Words(data)[1..] == Words(data[2..]);
    }
  }

  lemma AduShape(transaction: int, unit: byte, pdu: seq<byte>, rest: seq<byte>)
    requires 1 <= |pdu| < 65535
    ensures var data := Adu(transaction, unit, pdu) + rest;
            && MbapComplete(data) && ReadBig16(data, 2) == 0 && ReadBig16(data, 4) == 1 + |pdu|
            && data[6] == unit && data[7..7 + |pdu|] == pdu
  {
    var data := Adu(transaction, unit, pdu) + rest;
    Big16RoundTrip(1 + |pdu|);
    assert data[4] == Big16(1 + |pdu|)[0] && data[5] == Big16(1 + |pdu|)[1];
  }

  lemma PrintedRegisters(kind: Kind, registers: seq<word>)
    requires ShapeOf(kind) == RegisterShape && |registers| <= 127
    ensures DecodePdu(kind, ReplyPdu(kind, RegisterValues(registers))) == RegisterValues(registers)
  {
    var pdu := ReplyPdu(kind, RegisterValues(registers));
    assert pdu[2..] == RegisterBytes(registers);
    WordsOfRegisterBytes(registers);
  }

  lemma PrintedBits(kind: Kind, bits: seq<bool>)
    requires ShapeOf(kind) == BitShape && |bits| % 8 == 0 && |bits| / 8 <= 255
    ensures DecodePdu(kind, ReplyPdu(kind, BitValues(bits))) == BitValues(bits)
  {
    var pdu := ReplyPdu(kind, BitValues(bits));
    assert pdu[2..] == PackBits(bits);
    UnpackPacked(bits);
  }

  lemma PrintedEcho(kind: Kind, first: word, second: word)
    requires ShapeOf(kind) == EchoShape
    ensures DecodePdu(kind, ReplyPdu(kind, Echo(first, second))) == Echo(first, second)
  {
    Big16RoundTrip(first);
    Big16RoundTrip(second);
  }

  lemma DecodePrintedPdu(kind: Kind, reply: Reply)
    requires Positive(kind, reply) || reply.Exception?
    ensures 1 <= |ReplyPdu(kind, reply)| < 65535 && DecodePdu(kind, ReplyPdu(kind, reply)) == reply
  {
    match reply
    case RegisterValues(registers) => PrintedRegisters(kind, registers);
    case BitValues(bits) => PrintedBits(kind, bits);
    case Echo(first, second) => PrintedEcho(kind, first, second);
    case Exception(_) =>
  }

  /** Every printed reply decodes to itself, whatever follows it. */
  lemma DecodePrinted(kind: Kind, transaction: int, unit: byte, reply: Reply, rest: seq<byte>)
    requires Positive(kind, reply) || reply.Exception?
    ensures Decode(kind, Adu(transaction, unit, ReplyPdu(kind, reply)) + rest) == reply
  {
    DecodePrintedPdu(kind, reply);
    AduShape(transaction, unit, ReplyPdu(kind, reply), rest);
  }

  lemma DecodedRegisters(kind: Kind, pdu: seq<byte>)
    requires |pdu| >= 1 && DecodePdu(kind, pdu).RegisterValues?
    ensures Positive(kind, DecodePdu(kind, pdu)) && ReplyPdu(kind, DecodePdu(kind, pdu)) == pdu
  {
    RegisterBytesOfWords(pdu[2..]);
  }

  lemma DecodedBits(kind: Kind, pdu: seq<byte>)
    requires |pdu| >= 1 && DecodePdu(kind, pdu).BitValues?
    ensures Positive(kind, DecodePdu(kind, pdu)) && ReplyPdu(kind, DecodePdu(kind, pdu)) == pdu
  {
    PackUnpacked(pdu[2..]);
  }

  lemma DecodedEcho(kind: Kind, pdu: seq<byte>)
    requires |pdu| >= 1 && DecodePdu(kind, pdu).Echo?
    ensures Positive(kind, DecodePdu(kind, pdu)) && ReplyPdu(kind, DecodePdu(kind, pdu)) == pdu
  {
    BytesOfBig16(pdu[1], pdu[2]);
    BytesOfBig16(pdu[3], pdu[4]);
  }

  lemma DecodedPduIsPrinted(kind: Kind, pdu: seq<byte>)
    requires |pdu| >= 1 && (var reply := DecodePdu(kind, pdu); reply.RegisterValues? || reply.BitValues? || reply.Echo?)
    ensures Positive(kind, DecodePdu(kind, pdu)) && ReplyPdu(kind, DecodePdu(kind, pdu)) == pdu
  {
    match DecodePdu(kind, pdu)
    case RegisterValues(_) => DecodedRegisters(kind, pdu);
    case BitValues(_) => DecodedBits(kind, pdu);
    case Echo(_, _) => DecodedEcho(kind, pdu);
  }

  lemma AduOfHeader(data: seq<byte>)
    requires MbapComplete(data) && ReadBig16(data, 2) == 0 && ReadBig16(data, 4) >= 2
    ensures Adu(ReadBig16(data, 0), data[6], data[7..6 + ReadBig16(data, 4)]) == data[..6 + ReadBig16(data, 4)]
  {
    BytesOfBig16(data[0], data[1]);
    BytesOfBig16(data[2], data[3]);
    BytesOfBig16(data[4], data[5]);
  }

  /** What decodes to a positive reply is that reply as a server prints it. */
  lemma DecodedIsPrinted(kind: Kind, data: seq<byte>)
    requires var reply := Decode(kind, data); reply.RegisterValues? || reply.BitValues? || reply.Echo?
    ensures Positive(kind, Decode(kind, data))
    ensures Adu(ReadBig16(data, 0), data[6], ReplyPdu(kind, Decode(kind, data))) <= data
  {
    DecodedPduIsPrinted(kind, data[7..6 + ReadBig16(data, 4)]);
    AduOfHeader(data);
  }

  /**
   A complete, well-framed response is an exception exactly when its function code has the high bit and a code follows.
   */
  lemma ExceptionExact(kind: Kind, data: seq<byte>, code: byte)
    ensures Decode(kind, data) == Exception(code) <==>
            && |data| >= 9 && 3 <= ReadBig16(data, 4) <= |data| - 6 && ReadBig16(data, 2) == 0
            && data[7] / 128 == 1 && data[8] == code
  {
    if MbapComplete(data) && ReadBig16(data, 4) >= 3 {
      var pdu := data[7..6 + ReadBig16(data, 4)];
      assert pdu[0] == data[7] && pdu[1] == data[8];
    }
  }

  /** A successful single write echoes the request: the decoder reads the request's own words in it. */
  lemma WriteEchoes(kind: Kind, unit: byte, address: word, argument: word, transaction: word, rest: seq<byte>)
    requires kind == WriteSingleRegister || kind == WriteSingleCoil
    ensures Decode(kind, Encode(Fixed(kind, unit, address, argument), transaction) + rest) == Echo(address, argument)
  {
    DecodePrinted(kind, transaction, unit, Echo(address, argument), rest);
  }

  /** `data` is one response frame, exactly as long as its header says. */
  predicate OneFrame(data: seq<byte>) {
    |data| >= 8 && |data| == 6 + ReadBig16(data, 4)
  }

  lemma PrefixIncomplete(kind: Kind, frame: seq<byte>, n: nat)
    requires OneFrame(frame) && n < |frame|
    ensures Decode(kind, frame[..n]) == Incomplete
    ensures Decode(kind, frame) != Incomplete
  {
    if n >= 8 {
      assert ReadBig16(frame[..n], 4) == ReadBig16(frame, 4);
    }
  }
}
