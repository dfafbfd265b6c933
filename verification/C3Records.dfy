/**
 The schema-driven record format of table replies.

 A payload is the table index, the indexes of the returned columns, and rows of length-prefixed
 cells, one cell per column. The specification parses rows of raw cells and interprets them
 afterwards; the method interprets while it walks the payload, as the codec does.
 */
module C3Records {
  import opened Bytes
  import opened Sequences
  import opened Wrappers

  /** Latin-1 text, one byte a character. */
  type Text = seq<byte>

  const TYPE_INT: byte := 0x69
  const TYPE_LONG: byte := 0x4C
  const TYPE_TEXT: byte := 0x73

  datatype Field = Field(name: Text, kind: byte, index: int)

  datatype Value = Number(n: int) | Chars(text: Text)

  type Record = map<Text, Value>

  type Cell = seq<byte>

  type Row = seq<Cell>

  datatype Status = Ok | Malformed | TableMismatch

  datatype Response = Response(status: Status, records: seq<Record>)

  const REFUSED := Response(Malformed, [])

  // ---- Integers in cells ----

  function Pow256(n: nat): (p: nat)
    ensures p > 0
  {
    if n == 0 then 1 else 256 * Pow256(n - 1)
  }

  const TWO_63 := 0x8000_0000_0000_0000

  /** The little-endian value of a cell, without a sign. */
  function Little(cell: Cell): nat {
    if cell == [] then 0 else cell[0] as int + 256 * Little(cell[1..])
  }

  /** Eight full bytes land in a signed 64-bit integer. */
  function Signed(n: nat): int {
    if n >= TWO_63 then n - 2 * TWO_63 else n
  }

  /** `n` in exactly `width` bytes, little-endian. */
  function LittleBytes(n: nat, width: nat): (cell: Cell)
    ensures |cell| == width
  {
    if width == 0 then [] else [Byte(n)] + LittleBytes(n / 256, width - 1)
  }

  lemma {:induction false} LittleRoundTrip(n: nat, width: nat)
    requires n < Pow256(width)
    ensures Little(LittleBytes(n, width)) == n
  {
    if width > 0 {
      LittleRoundTrip(n / 256, width - 1);
      assert LittleBytes(n, width)[1..] == LittleBytes(n / 256, width - 1);
    }
  }

  lemma {:induction false} LittleNext(cell: Cell, b: byte)
    ensures Little(cell + [b]) == Little(cell) + b as int * Pow256(|cell|)
  {
    if cell == [] {
      assert [b][1..] == [];
    } else {
      LittleNext(cell[1..], b);
      assert (cell + [b])[1..] == cell[1..] + [b];
      Scaled(b, Pow256(|cell| - 1));
    }
  }

  lemma Scaled(b: int, p: int)
    ensures 256 * (b * p) == b * (256 * p)
  {
  }

  lemma {:induction false} LittleBound(cell: Cell)
    ensures Little(cell) < Pow256(|cell|)
  {
    if cell != [] {
      LittleBound(cell[1..]);
    }
  }

  /** A cell of at most eight bytes is a 64-bit signed integer. */
  lemma SignedInRange(cell: Cell)
    requires |cell| <= 8
    ensures -TWO_63 <= Signed(Little(cell)) < TWO_63
  {
    LittleBound(cell);
    PowAtMost(|cell|);
  }

  lemma PowAtMost(n: nat)
    requires n <= 8
    ensures Pow256(n) <= 2 * TWO_63
  {
    assert Pow256(4) == 0x1_0000_0000;
    assert Pow256(8) == 2 * TWO_63;
  }

  // ---- Columns ----

  /** The first field of the schema with this index. */
  function FindField(fields: seq<Field>, index: int): Option<Field> {
    if fields == [] then None
    else if fields[0].index == index then Some(fields[0])
    else FindField(fields[1..], index)
  }

  predicate AllKnown(fields: seq<Field>, indexes: seq<byte>) {
    forall i | 0 <= i < |indexes| :: FindField(fields, indexes[i]).Some?
  }

  function Columns(fields: seq<Field>, indexes: seq<byte>): (columns: seq<Field>)
    requires AllKnown(fields, indexes)
    ensures |columns| == |indexes|
  {
    seq(|indexes|, i requires 0 <= i < |indexes| => FindField(fields, indexes[i]).value)
  }

  // ---- Rows of raw cells ----

  predicate Typed(kind: byte, size: nat) {
    if kind == TYPE_INT || kind == TYPE_LONG then size <= 8 else kind == TYPE_TEXT
  }

  /** A row that fits its columns: one cell each, of a size the column's type and the length byte allow. */
  predicate Fits(columns: seq<Field>, row: Row) {
    |row| == |columns| && forall i | 0 <= i < |row| :: |row[i]| <= 255 && Typed(columns[i].kind, |row[i]|)
  }

  predicate AllFit(columns: seq<Field>, rows: seq<Row>) {
    forall i | 0 <= i < |rows| :: Fits(columns, rows[i])
  }

  function PrintCell(cell: Cell): seq<byte> {
    [Byte(|cell|)] + cell
  }

  function PrintRow(row: Row): seq<byte> {
    if row == [] then [] else PrintCell(row[0]) + PrintRow(row[1..])
  }

  function PrintRows(rows: seq<Row>): seq<byte> {
    if rows == [] then [] else PrintRow(rows[0]) + PrintRows(rows[1..])
  }

  /** The bytes a panel answers with. */
  function Print(table: int, indexes: seq<byte>, rows: seq<Row>): seq<byte> {
    [Byte(table), Byte(|indexes|)] + indexes + PrintRows(rows)
  }

  /** The next cell of the data, for a column of this type. */
  function TakeCell(kind: byte, data: seq<byte>): Option<Cell> {
    if data == [] || data[0] as int > |data| - 1 || !Typed(kind, data[0]) then None
    else Some(data[1..1 + data[0] as int])
  }

  function TakeRow(columns: seq<Field>, data: seq<byte>): (row: Option<Row>)
    ensures row.Some? ==> |row.value| == |columns|
  {
    if columns == [] then Some([]) else
    var cell := TakeCell(columns[0].kind, data);
    if cell.None? then None else
    var rest := TakeRow(columns[1..], data[1 + |cell.value|..]);
    if rest.None? then None else Some([cell.value] + rest.value)
  }

  /** Everything left is whole rows; with no columns nothing may be left. */
  function TakeRows(columns: seq<Field>, data: seq<byte>): Option<seq<Row>>
    decreases |data|
  {
    if data == [] then Some([])
    else if columns == [] then None else
    var row := TakeRow(columns, data);
    if row.None? then None else
    TakenRow(columns, data);
    var rest := TakeRows(columns, data[|PrintRow(row.value)|..]);
    if rest.None? then None else Some([row.value] + rest.value)
  }

  lemma CellTaken(kind: byte, data: seq<byte>)
    requires TakeCell(kind, data).Some?
    ensures var cell := TakeCell(kind, data).value;
            |cell| <= 255 && Typed(kind, |cell|) && data == PrintCell(cell) + data[1 + |cell|..]
  {
  }

  lemma {:induction false} TakenRow(columns: seq<Field>, data: seq<byte>)
    requires TakeRow(columns, data).Some?
    ensures var row := TakeRow(columns, data).value;
            && Fits(columns, row) && PrintRow(row) <= data && (columns != [] ==> PrintRow(row) != [])
    decreases |columns|
  {
    if columns != [] {
      var cell := TakeCell(columns[0].kind, data).value;
      var after := data[1 + |cell|..];
      CellTaken(columns[0].kind, data);
      TakenRow(columns[1..], after);
      var row, rest := TakeRow(columns, data).value, TakeRow(columns[1..], after).value;
      assert row[0] == cell && row[1..] == rest;
      assert PrintRow(row) == PrintCell(cell) + PrintRow(rest);
      assert data == PrintCell(cell) + after;
      RowFits(columns, cell, rest);
    }
  }

  lemma RowFits(columns: seq<Field>, cell: Cell, rest: Row)
    requires columns != [] && |cell| <= 255 && Typed(columns[0].kind, |cell|) && Fits(columns[1..], rest)
    ensures Fits(columns, [cell] + rest)
  {
    forall i | 0 <= i < |rest| + 1
      ensures |([cell] + rest)[i]| <= 255 && Typed(columns[i].kind, |([cell] + rest)[i]|)
    {
      if i > 0 {
        assert ([cell] + rest)[i] == rest[i - 1] && columns[i] == columns[1..][i - 1];
      }
    }
  }

  lemma CellPrinted(kind: byte, cell: Cell, rest: seq<byte>)
    requires |cell| <= 255 && Typed(kind, |cell|)
    ensures TakeCell(kind, PrintCell(cell) + rest) == Some(cell)
    ensures (PrintCell(cell) + rest)[1 + |cell|..] == rest
  {
  }

  lemma FitsTail(columns: seq<Field>, row: Row)
    requires Fits(columns, row) && row != []
    ensures Fits(columns[1..], row[1..])
  {
  }

  lemma {:induction false} RowPrinted(columns: seq<Field>, row: Row, rest: seq<byte>)
    requires Fits(columns, row)
    ensures TakeRow(columns, PrintRow(row) + rest) == Some(row)
    decreases |row|
  {
    if columns != [] {
      var more := PrintRow(row[1..]) + rest;
      var data := PrintCell(row[0]) + more;
      Associate(PrintCell(row[0]), PrintRow(row[1..]), rest);
      CellPrinted(columns[0].kind, row[0], more);
      FitsTail(columns, row);
      RowPrinted(columns[1..], row[1..], rest);
      Rejoin(row);
    }
  }

  lemma NonEmptyRow(row: Row)
    ensures row != [] ==> PrintRow(row) != []
  {
  }

  /** Rows are read back from what is printed. */
  lemma {:induction false} RowsPrinted(columns: seq<Field>, rows: seq<Row>)
    requires AllFit(columns, rows) && (columns == [] ==> rows == [])
    ensures TakeRows(columns, PrintRows(rows)) == Some(rows)
    decreases |rows|
  {
    if rows != [] {
      var data, rest := PrintRows(rows), PrintRows(rows[1..]);
      RowPrinted(columns, rows[0], rest);
      NonEmptyRow(rows[0]);
      RowsPrinted(columns, rows[1..]);
      DropPrefix(PrintRow(rows[0]), rest);
      Rejoin(rows);
    }
  }

  /** What is read is what would be printed. */
  lemma {:induction false} RowsTaken(columns: seq<Field>, data: seq<byte>)
    requires TakeRows(columns, data).Some?
    ensures var rows := TakeRows(columns, data).value;
            AllFit(columns, rows) && PrintRows(rows) == data && (columns == [] ==> rows == [])
    decreases |data|
  {
    if data != [] {
      var row := TakeRow(columns, data).value;
      TakenRow(columns, data);
      var after := data[|PrintRow(row)|..];
      RowsTaken(columns, after);
      var rows := TakeRows(columns, data).value;
      assert rows[0] == row && rows[1..] == TakeRows(columns, after).value;
      assert data == PrintRow(row) + after;
      forall i | 0 <= i < |rows| ensures Fits(columns, rows[i]) {
        if i > 0 {
          assert rows[i] == rows[1..][i - 1];
        }
      }
    }
  }

  // ---- Interpretation ----

  function Interpret(kind: byte, cell: Cell): Value {
    if kind == TYPE_TEXT then Chars(cell) else Number(Signed(Little(cell)))
  }

  /** Cells are inserted in column order: a repeated name keeps its last value. */
  function RecordOf(columns: seq<Field>, row: Row): Record
    requires |row| <= |columns|
  {
    if row == [] then map[] else
    var n := |row| - 1;
    RecordOf(columns, row[..n])[columns[n].name := Interpret(columns[n].kind, row[n])]
  }

  function RecordsOf(columns: seq<Field>, rows: seq<Row>): (records: seq<Record>)
    requires AllFit(columns, rows)
    ensures |records| == |rows|
  {
    seq(|rows|, i requires 0 <= i < |rows| => RecordOf(columns, rows[i]))
  }

  // ---- The parser ----

  function ParseBody(columns: seq<Field>, body: seq<byte>): Response {
    var rows := TakeRows(columns, body);
    if rows.None? then REFUSED else
    RowsTaken(columns, body);
    Response(Ok, RecordsOf(columns, rows.value))
  }

  function Parse(payload: seq<byte>, table: int, fields: seq<Field>): Response {
    if |payload| < 2 then REFUSED
    else if payload[0] != Byte(table) then Response(TableMismatch, [])
    else
      var end := 2 + payload[1] as int;
      if |payload| < end || !AllKnown(fields, payload[2..end]) then REFUSED
      else ParseBody(Columns(fields, payload[2..end]), payload[end..])
  }

  // ---- The loops of the parser ----

  method Lookup(fields: seq<Field>, index: int) returns (found: Option<Field>)
    ensures found == FindField(fields, index)
  {
    for i := 0 to |fields|
      invariant FindField(fields, index) == FindField(fields[i..], index)
    {
      if fields[i].index == index { return Some(fields[i]); }
      assert fields[i..][1..] == fields[i + 1..];
    }
    return None;
  }

  method ResolveColumns(fields: seq<Field>, indexes: seq<byte>) returns (columns: Option<seq<Field>>)
    ensures columns == if AllKnown(fields, indexes) then Some(Columns(fields, indexes)) else None
  {
    var known: seq<Field> := [];
    for i := 0 to |indexes|
      invariant |known| == i && forall j | 0 <= j < i :: FindField(fields, indexes[j]) == Some(known[j])
    {
      var field := Lookup(fields, indexes[i]);
      if field.None? { return None; }
      known := known + [field.value];
    }
    assert known == Columns(fields, indexes);
    return Some(known);
  }

  method ReadInteger(payload: seq<byte>, offset: nat, size: nat) returns (value: int)
    requires offset + size <= |payload|
    ensures value == Signed(Little(payload[offset..offset + size]))
  {
    var bits: nat := 0;
    for i := 0 to size
      invariant bits == Little(payload[offset..offset + i])
    {
      LittleNext(payload[offset..offset + i], payload[offset + i]);
      assert payload[offset..offset + i] + [payload[offset + i]] == payload[offset..offset + i + 1];
      bits := bits + payload[offset + i] as int * Pow256(i);
    }
    return Signed(bits);
  }

  lemma RecordNext(columns: seq<Field>, cells: Row, cell: Cell)
    requires |cells| < |columns|
    ensures RecordOf(columns, cells + [cell]) ==
            RecordOf(columns, cells)[columns[|cells|].name := Interpret(columns[|cells|].kind, cell)]
  {
    assert (cells + [cell])[..|cells|] == cells;
  }

  lemma CellAt(payload: seq<byte>, offset: nat, kind: byte)
    requires offset < |payload|
    ensures var size := payload[offset] as int;
            TakeCell(kind, payload[offset..]) ==
            if size > |payload| - (offset + 1) || !Typed(kind, size) then None
            else Some(payload[offset + 1..offset + 1 + size])
  {
    var data, size := payload[offset..], payload[offset] as int;
    assert data[0] == payload[offset];
    if size <= |payload| - (offset + 1) {
      assert data[1..1 + size] == payload[offset + 1..offset + 1 + size];
    }
  }

  method ReadValue(payload: seq<byte>, offset: nat, size: nat, kind: byte) returns (value: Option<Value>)
    requires offset + size <= |payload|
    ensures value == if Typed(kind, size) then Some(Interpret(kind, payload[offset..offset + size])) else None
  {
    if kind == TYPE_INT || kind == TYPE_LONG {
      if size > 8 { return None; }
      var n := ReadInteger(payload, offset, size);
      return Some(Number(n));
    } else if kind == TYPE_TEXT {
      return Some(Chars(payload[offset..offset + size]));
    }
    return None;
  }

  method ReadCell(payload: seq<byte>, offset: nat, kind: byte) returns (value: Option<Value>, next: nat)
    requires offset <= |payload|
    ensures next <= |payload|
    ensures var cell := TakeCell(kind, payload[offset..]);
            if cell.None? then value.None?
            else value == Some(Interpret(kind, cell.value)) && next == offset + 1 + |cell.value|
  {
    if offset >= |payload| { return None, offset; }
    CellAt(payload, offset, kind);
    var size := payload[offset] as int;
    if size > |payload| - (offset + 1) { return None, offset; }
    value := ReadValue(payload, offset + 1, size, kind);
    next := offset + 1 + size;
  }

  datatype Partial = Partial(fields: Record, left: seq<byte>)

  /** One record read column by column, with the values collected so far. */
  function ReadFrom(columns: seq<Field>, data: seq<byte>, fields: Record): Option<Partial> {
    if columns == [] then Some(Partial(fields, data)) else
    var cell := TakeCell(columns[0].kind, data);
    if cell.None? then None
    else ReadFrom(columns[1..], data[1 + |cell.value|..],
                  fields[columns[0].name := Interpret(columns[0].kind, cell.value)])
  }

  lemma ReadFromStep(columns: seq<Field>, j: nat, payload: seq<byte>, offset: nat, fields: Record)
    requires j < |columns| && offset <= |payload|
    ensures var column := columns[j];
            var cell := TakeCell(column.kind, payload[offset..]);
            ReadFrom(columns[j..], payload[offset..], fields) ==
            if cell.None? then None
            else ReadFrom(columns[j + 1..], payload[offset + 1 + |cell.value|..],
                          fields[column.name := Interpret(column.kind, cell.value)])
  {
    var cell := TakeCell(columns[j].kind, payload[offset..]);
    DropTwice(columns, j, 1);
    if cell.Some? {
      DropTwice(payload, offset, 1 + |cell.value|);
    }
  }

  lemma ReadFromEnd(columns: seq<Field>, data: seq<byte>, fields: Record)
    ensures ReadFrom(columns[|columns|..], data, fields) == Some(Partial(fields, data))
  {
  }

  /** One pass of the record loop: a length byte and a value per column. */
  method ReadRecord(payload: seq<byte>, start: nat, columns: seq<Field>) returns (record: Option<Record>, offset: nat)
    requires start <= |payload|
    ensures offset <= |payload|
    ensures ReadFrom(columns, payload[start..], map[]) ==
            if record.None? then None else Some(Partial(record.value, payload[offset..]))
  {
    hide *;
    var fields: Record := map[];
    offset := start;
    ghost var whole := ReadFrom(columns, payload[start..], map[]);
    Nothing(columns);
    for j := 0 to |columns|
      invariant offset <= |payload|
      invariant whole == ReadFrom(columns[j..], payload[offset..], fields)
    {
      ReadFromStep(columns, j, payload, offset, fields);
      var value, next := ReadCell(payload, offset, columns[j].kind);
      if value.None? { return None, offset; }
      fields := fields[columns[j].name := value.value];
      offset := next;
    }
    ReadFromEnd(columns, payload[offset..], fields);
    record := Some(fields);
  }

  lemma RestLeft(cell: Cell, rest: Row, data: seq<byte>)
    requires 1 + |cell| <= |data| && |PrintRow(rest)| <= |data| - 1 - |cell|
    ensures |PrintRow([cell] + rest)| == 1 + |cell| + |PrintRow(rest)|
    ensures data[1 + |cell|..][|PrintRow(rest)|..] == data[|PrintRow([cell] + rest)|..]
  {
    assert ([cell] + rest)[1..] == rest;
  }

  /** Reading a record is reading a row and making it a record. */
  lemma {:induction false} ReadFromRow(columns: seq<Field>, cells: Row, data: seq<byte>)
    requires |cells| <= |columns|
    ensures var rest := TakeRow(columns[|cells|..], data);
            if rest.None? then ReadFrom(columns[|cells|..], data, RecordOf(columns, cells)).None?
            else |PrintRow(rest.value)| <= |data| &&
                 ReadFrom(columns[|cells|..], data, RecordOf(columns, cells)) ==
                 Some(Partial(RecordOf(columns, cells + rest.value), data[|PrintRow(rest.value)|..]))
    decreases |columns| - |cells|
  {
    if |cells| == |columns| {
      Nothing(cells);
    } else {
      var column := columns[|cells|];
      DropTwice(columns, |cells|, 1);
      var cell := TakeCell(column.kind, data);
      if cell.Some? {
        var left := data[1 + |cell.value|..];
        RecordNext(columns, cells, cell.value);
        ReadFromRow(columns, cells + [cell.value], left);
        var rest := TakeRow(columns[|cells| + 1..], left);
        if rest.Some? {
          Associate(cells, [cell.value], rest.value);
          RestLeft(cell.value, rest.value, data);
        }
      }
    }
  }

  /** Records already read, followed by whatever the rest of the payload gives. */
  function Continue(records: seq<Record>, rest: Response): Response {
    if rest.status == Ok then Response(Ok, records + rest.records) else REFUSED
  }

  lemma RecordsNext(columns: seq<Field>, row: Row, rows: seq<Row>)
    requires Fits(columns, row) && AllFit(columns, rows)
    ensures AllFit(columns, [row] + rows)
    ensures RecordsOf(columns, [row] + rows) == [RecordOf(columns, row)] + RecordsOf(columns, rows)
  {
  }

  lemma BodyStep(columns: seq<Field>, data: seq<byte>)
    requires data != [] && columns != []
    ensures var read := ReadFrom(columns, data, map[]);
            if read.None? then ParseBody(columns, data) == REFUSED
            else |read.value.left| < |data| &&
                 ParseBody(columns, data) == Continue([read.value.fields], ParseBody(columns, read.value.left))
  {
    var row := TakeRow(columns, data);
    ReadFromRow(columns, [], data);
    Nothing(columns);
    if row.Some? {
      Nothing(row.value);
      TakenRow(columns, data);
      var rest := data[|PrintRow(row.value)|..];
      var rows := TakeRows(columns, rest);
      if rows.Some? {
        RowsTaken(columns, rest);
        RecordsNext(columns, row.value, rows.value);
      }
    }
  }

  /** The parser as the codec writes it: by offsets, building each record on the way. */
  method ParsePayload(payload: seq<byte>, table: int, fields: seq<Field>) returns (response: Response)
    ensures response == Parse(payload, table, fields)
  {
    if |payload| < 2 { return REFUSED; }
    if payload[0] != Byte(table) { return Response(TableMismatch, []); }
    var fieldCount := payload[1] as int;
    if |payload| < 2 + fieldCount { return REFUSED; }
    var found := ResolveColumns(fields, payload[2..2 + fieldCount]);
    if found.None? { return REFUSED; }
    response := ParseRecords(payload, 2 + fieldCount, found.value);
  }

  method ParseRecords(payload: seq<byte>, start: nat, columns: seq<Field>) returns (response: Response)
    requires start <= |payload|
    ensures response == ParseBody(columns, payload[start..])
  {
    var offset := start;
    if columns == [] && offset != |payload| { return REFUSED; }
    var records: seq<Record> := [];
    while offset < |payload|
      invariant start <= offset <= |payload| && (columns == [] ==> offset == |payload|)
      invariant ParseBody(columns, payload[start..]) == Continue(records, ParseBody(columns, payload[offset..]))
    {
      BodyStep(columns, payload[offset..]);
      var record, next := ReadRecord(payload, offset, columns);
      if record.None? { return REFUSED; }
      records := records + [record.value];
      offset := next;
    }
    response := Response(Ok, records);
  }

  // ---- Soundness and completeness ----

  /** The payload is a matching header followed by whole records of known fields. */
  ghost predicate Printed(payload: seq<byte>, table: int, fields: seq<Field>, indexes: seq<byte>, rows: seq<Row>) {
    && |indexes| <= 255 && AllKnown(fields, indexes)
    && AllFit(Columns(fields, indexes), rows) && (indexes == [] ==> rows == [])
    && payload == Print(table, indexes, rows)
  }

  lemma PrintParts(table: int, indexes: seq<byte>, rows: seq<Row>)
    requires |indexes| <= 255
    ensures var payload := Print(table, indexes, rows);
            && |payload| >= 2 + |indexes| && payload[0] == Byte(table) && payload[1] == |indexes|
            && payload[2..2 + |indexes|] == indexes && payload[2 + |indexes|..] == PrintRows(rows)
  {
  }

  lemma PartsPrint(payload: seq<byte>, table: int, end: nat, rows: seq<Row>)
    requires |payload| >= 2 && payload[0] == Byte(table) && end == 2 + payload[1] as int <= |payload|
    requires payload[end..] == PrintRows(rows)
    ensures payload == Print(table, payload[2..end], rows)
  {
  }

  lemma ParsePrinted(payload: seq<byte>, table: int, fields: seq<Field>, indexes: seq<byte>, rows: seq<Row>)
    requires Printed(payload, table, fields, indexes, rows)
    ensures Parse(payload, table, fields) == Response(Ok, RecordsOf(Columns(fields, indexes), rows))
  {
    RowsPrinted(Columns(fields, indexes), rows);
    PrintParts(table, indexes, rows);
  }

  lemma ParsedIsPrinted(payload: seq<byte>, table: int, fields: seq<Field>) returns (indexes: seq<byte>, rows: seq<Row>)
    requires Parse(payload, table, fields).status == Ok
    ensures Printed(payload, table, fields, indexes, rows)
  {
    var end := 2 + payload[1] as int;
    indexes := payload[2..end];
    var columns := Columns(fields, indexes);
    RowsTaken(columns, payload[end..]);
    rows := TakeRows(columns, payload[end..]).value;
    PartsPrint(payload, table, end, rows);
  }

  /** The parser answers Ok exactly on printed payloads, and then returns the records that were printed. */
  lemma ParseExact(payload: seq<byte>, table: int, fields: seq<Field>, records: seq<Record>)
    ensures Parse(payload, table, fields) == Response(Ok, records) <==>
            exists indexes, rows ::
              Printed(payload, table, fields, indexes, rows) && records == RecordsOf(Columns(fields, indexes), rows)
    ensures Parse(payload, table, fields).status != Ok ==> Parse(payload, table, fields).records == []
  {
    if Parse(payload, table, fields).status == Ok {
      var indexes, rows := ParsedIsPrinted(payload, table, fields);
      ParsePrinted(payload, table, fields, indexes, rows);
    }
    forall indexes, rows | Printed(payload, table, fields, indexes, rows)
      ensures Parse(payload, table, fields) == Response(Ok, RecordsOf(Columns(fields, indexes), rows))
    {
      ParsePrinted(payload, table, fields, indexes, rows);
    }
  }

  /** No payload is the print of two different tables of cells. */
  lemma PrintedUnique(payload: seq<byte>, table: int, fields: seq<Field>, indexes: seq<byte>, rows: seq<Row>,
                      others: seq<byte>, cells: seq<Row>)
    requires Printed(payload, table, fields, indexes, rows) && Printed(payload, table, fields, others, cells)
    ensures indexes == others && rows == cells
  {
    PrintParts(table, indexes, rows);
    PrintParts(table, others, cells);
    RowsPrinted(Columns(fields, indexes), rows);
    RowsPrinted(Columns(fields, indexes), cells);
  }

  // ---- Values ----

  /** `cell` is a way to write `value` in a column of this type. */
  predicate Encodes(kind: byte, value: Value, cell: Cell) {
    match value
    case Number(n) =>
      (kind == 'i' as byte || kind == 'L' as byte) && |cell| <= 8 && 0 <= n < TWO_63 && n < Pow256(|cell|) &&
        cell == LittleBytes(n, |cell|)
    case Chars(text) => kind == 's' as byte && |cell| <= 255 && cell == text
  }

  predicate DistinctNames(columns: seq<Field>) {
    forall i, j | 0 <= i < j < |columns| :: columns[i].name != columns[j].name
  }

  /** The record names exactly the columns, each with its own value. */
  ghost predicate Holds(record: Record, columns: seq<Field>, values: seq<Value>) {
    && |values| == |columns|
    && record.Keys == (set j | 0 <= j < |columns| :: columns[j].name)
    && forall j | 0 <= j < |columns| :: columns[j].name in record && record[columns[j].name] == values[j]
  }

  predicate RowEncodes(columns: seq<Field>, values: seq<Value>, row: Row) {
    |values| == |columns| == |row| && forall j | 0 <= j < |row| :: Encodes(columns[j].kind, values[j], row[j])
  }

  lemma CellEncodes(kind: byte, value: Value, cell: Cell)
    requires Encodes(kind, value, cell)
    ensures |cell| <= 255 && Typed(kind, |cell|) && Interpret(kind, cell) == value
  {
    if value.Number? {
      LittleRoundTrip(value.n, |cell|);
    }
  }

  /** A value stands in the record under its column's name unless a later column has the same name. */
  lemma {:induction false} RecordHolds(columns: seq<Field>, row: Row, j: nat)
    requires j < |row| <= |columns| && forall k | j < k < |row| :: columns[k].name != columns[j].name
    ensures columns[j].name in RecordOf(columns, row) &&
            RecordOf(columns, row)[columns[j].name] == Interpret(columns[j].kind, row[j])
  {
    var n := |row| - 1;
    if j < n {
      RecordHolds(columns, row[..n], j);
    }
  }

  lemma {:induction false} RecordKeys(columns: seq<Field>, row: Row)
    requires |row| <= |columns|
    ensures RecordOf(columns, row).Keys == set j | 0 <= j < |row| :: columns[j].name
  {
    if row != [] {
      RecordKeys(columns, row[..|row| - 1]);
    }
  }

  lemma RowRoundTrip(columns: seq<Field>, values: seq<Value>, row: Row)
    requires DistinctNames(columns) && RowEncodes(columns, values, row)
    ensures Fits(columns, row) && Holds(RecordOf(columns, row), columns, values)
  {
    RecordKeys(columns, row);
    forall j | 0 <= j < |row|
      ensures |row[j]| <= 255 && Typed(columns[j].kind, |row[j]|)
      ensures columns[j].name in RecordOf(columns, row) && RecordOf(columns, row)[columns[j].name] == values[j]
    {
      CellEncodes(columns[j].kind, values[j], row[j]);
      RecordHolds(columns, row, j);
    }
  }

  /**
   Whatever cells a panel chooses to write the values with, the parser returns records holding exactly those values.
   */
  lemma ValuesRoundTrip(table: int, fields: seq<Field>, indexes: seq<byte>, values: seq<seq<Value>>, rows: seq<Row>)
    requires |indexes| <= 255 && AllKnown(fields, indexes) && (indexes == [] ==> rows == [])
    requires DistinctNames(Columns(fields, indexes)) && |values| == |rows|
    requires forall i | 0 <= i < |rows| :: RowEncodes(Columns(fields, indexes), values[i], rows[i])
    ensures var response := Parse(Print(table, indexes, rows), table, fields);
            && response.status == Ok && |response.records| == |values|
            && forall i | 0 <= i < |values| :: Holds(response.records[i], Columns(fields, indexes), values[i])
  {
    var columns := Columns(fields, indexes);
    forall i | 0 <= i < |rows|
      ensures Fits(columns, rows[i]) && Holds(RecordOf(columns, rows[i]), columns, values[i])
    {
      RowRoundTrip(columns, values[i], rows[i]);
    }
    ParsePrinted(Print(table, indexes, rows), table, fields, indexes, rows);
  }
}
