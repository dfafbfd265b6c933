/** The requests and replies of the C3 protocol, on top of the frame, the text and the record formats. */
module C3Messages {
  import opened Bytes
  import opened C3Frame
  import Records = C3Records
  import Text = C3Text

  const CONNECT_SESSION_LESS: byte := 0x01
  const DISCONNECT: byte := 0x02
  const CONTROL: byte := 0x05
  const GET_DATA: byte := 0x08
  const GET_DATA_COUNT: byte := 0x0A
  const RTLOG_BINARY: byte := 0x0B
  const PREPARE_DATA: byte := 0x0D
  const TRANSMIT_DATA: byte := 0x0E
  const FREE_DATA: byte := 0x0F
  const CONNECT_SESSION: byte := 0x76
  const RTLOG_KEY_VALUE: byte := 0x79

  const PRE_SESSION_ID := 0xFEFE
  const PRE_SESSION_REQUEST_NR := -258

  // ---- Request payloads ----

  function IndexBytes(fields: seq<Records.Field>): seq<byte> {
    seq(|fields|, i requires 0 <= i < |fields| => Byte(fields[i].index))
  }

  /** Table, number of columns, column indexes, two reserved bytes. */
  function GetDataPayload(table: Text.Table): seq<byte> {
    [Byte(table.index), Byte(|table.fields|)] + IndexBytes(table.fields) + [0, 0]
  }

  method BuildGetData(table: Text.Table) returns (payload: seq<byte>)
    ensures payload == GetDataPayload(table)
  {
    payload := [Byte(table.index)];
    payload := payload + [Byte(|table.fields|)];
    for i := 0 to |table.fields|
      invariant payload == [Byte(table.index), Byte(|table.fields|)] + IndexBytes(table.fields[..i])
    {
      payload := payload + [Byte(table.fields[i].index)];
    }
    assert table.fields[..|table.fields|] == table.fields;
    payload := payload + [0];
    payload := payload + [0];
  }

  function ControlPayload(operation: byte, first: byte, second: byte, third: byte): seq<byte> {
    [operation, first, second, third, 0]
  }

  // ---- Replies ----

  datatype ConfigReply = ConfigReply(status: Status, tables: seq<Text.Table>)

  function DecodeConfig(data: seq<byte>, strip: bool): ConfigReply {
    var frame := DecodeGeneric(data, strip);
    ConfigReply(frame.status, if frame.status == Ok then Text.DecodeTables(frame.payload) else [])
  }

  datatype DataReply =
    | DataIncomplete
    | DataMalformed
    | DataRejected
    | DataPrepared(compressed: bool, length: int)
    | DataParsed(response: Records.Response)

  /** A table reply is either the records themselves or the announcement of a transfer. */
  function DecodeGetData(data: seq<byte>, table: int, fields: seq<Records.Field>, strip: bool): DataReply {
    var frame := DecodeGeneric(data, strip);
    match frame.status
    case Incomplete => DataIncomplete
    case Malformed => DataMalformed
    case Rejected => DataRejected
    case Ok =>
      if frame.command != PREPARE_DATA then DataParsed(Records.Parse(frame.payload, table, fields))
      else if |frame.payload| != 17 then DataMalformed
      else DataPrepared(frame.payload[0] != 0, ReadLittle32(frame.payload, 1))
  }

  datatype TransmitReply = TransmitReply(status: Status, offset: int, chunk: seq<byte>)

  function DecodeTransmit(data: seq<byte>, strip: bool): TransmitReply {
    var frame := DecodeGeneric(data, strip);
    if frame.status != Ok then TransmitReply(frame.status, 0, [])
    else if |frame.payload| < 4 then TransmitReply(Malformed, 0, [])
    else TransmitReply(Ok, ReadLittle32(frame.payload, 0), frame.payload[4..])
  }

  datatype CountReply = CountReply(status: Status, count: int)

  function DecodeCount(data: seq<byte>, strip: bool): CountReply {
    var frame := DecodeGeneric(data, strip);
    if frame.status != Ok then CountReply(frame.status, 0)
    else if |frame.payload| != 4 then CountReply(Malformed, 0)
    else CountReply(Ok, ReadLittle32(frame.payload, 0))
  }

  datatype LogReply = LogIncomplete | LogFailed | NotBinaryMode | LogRecords(records: seq<seq<byte>>)

  function Slices(payload: seq<byte>): seq<seq<byte>> {
    if |payload| < 16 then [] else [payload[..16]] + Slices(payload[16..])
  }

  function DecodeRtlogBinary(data: seq<byte>, strip: bool): LogReply {
    var frame := DecodeGeneric(data, strip);
    match frame.status
    case Incomplete => LogIncomplete
    case Malformed => LogFailed
    case Rejected => LogFailed
    case Ok => if |frame.payload| % 16 != 0 then NotBinaryMode else LogRecords(Slices(frame.payload))
  }

  datatype KeyValueReply = KeyValueReply(status: Status, records: seq<Text.Parameters>)

  function DecodeRtlogKeyValue(data: seq<byte>, strip: bool): KeyValueReply {
    var frame := DecodeGeneric(data, strip);
    if frame.status != Ok then KeyValueReply(frame.status, []) else
    var pairs := Text.ParsePairs(frame.payload);
    KeyValueReply(Ok, if pairs == [] then [] else [Text.MapOf(pairs)])
  }

  /** Every reply decoder waits exactly while the frame is incomplete. */
  lemma AllWaitTogether(data: seq<byte>, strip: bool, table: int, fields: seq<Records.Field>)
    ensures DecodeConfig(data, strip).status == Incomplete <==> !Complete(data)
    ensures DecodeGetData(data, table, fields, strip).DataIncomplete? <==> !Complete(data)
    ensures DecodeTransmit(data, strip).status == Incomplete <==> !Complete(data)
    ensures DecodeCount(data, strip).status == Incomplete <==> !Complete(data)
    ensures DecodeRtlogBinary(data, strip).LogIncomplete? <==> !Complete(data)
    ensures DecodeRtlogKeyValue(data, strip).status == Incomplete <==> !Complete(data)
    ensures Text.DecodeGetParam(data, strip).status == Incomplete <==> !Complete(data)
    ensures DecodeReply(data) == Incomplete <==> !Complete(data)
    ensures DecodeConnectSession(data).status == Incomplete <==> !Complete(data)
  {
  }
}
