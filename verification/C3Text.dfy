/**
 The text payloads of the C3 protocol: `key=value` pairs, device parameters and table schemas.

 Pairs are found by scanning for the leftmost run of name characters, an equals sign and the
 longest run of anything but comma and tab. Text is cut at the first NUL before it is scanned.
 */
module C3Text {
  import opened Bytes
  import opened Sequences
  import Frame = C3Frame
  import opened C3Records

  const COMMA: byte := 0x2C
  const EQUALS: byte := 0x3D
  const TAB: byte := 0x09
  const NEWLINE: byte := 0x0A
  const NUL: byte := 0x00
  const GET_PARAM: byte := 0x04
  const DATATABLE_CFG: byte := 0x06

  datatype Pair = Pair(key: Text, value: Text)

  predicate NameByte(b: byte) {
    || 0x30 <= b <= 0x39
    || 0x41 <= b <= 0x5A
    || 0x61 <= b <= 0x7A
    || b == 0x5F
    || b == 0x7E
  }

  predicate ValueByte(b: byte) {
    b != COMMA && b != TAB
  }

  /** The characters of the text formats, by their Latin-1 codes. */
  lemma Characters(b: byte)
    ensures NameByte(b) <==> var c := b as char;
                             '0' <= c <= '9' || 'A' <= c <= 'Z' || 'a' <= c <= 'z' || c == '_' || c == '~'
    ensures ValueByte(b) <==> b as char != ',' && b as char != '\t'
    ensures [COMMA as char, EQUALS as char, TAB as char, NEWLINE as char, NUL as char] == [',', '=', '\t', '\n', '\0']
  {
  }

  // ---- Scanning ----

  function NameRun(text: Text): (n: nat)
    ensures n <= |text|
  {
    if text == [] || !NameByte(text[0]) then 0 else 1 + NameRun(text[1..])
  }

  function ValueRun(text: Text): (n: nat)
    ensures n <= |text|
  {
    if text == [] || !ValueByte(text[0]) then 0 else 1 + ValueRun(text[1..])
  }

  /** Where the pair that starts at the front of the text ends: after its key, and after its value. */
  predicate PairAtFront(text: Text) {
    var n := NameRun(text);
    n > 0 && n < |text| && text[n] == EQUALS && ValueRun(text[n + 1..]) > 0
  }

  function Pairs(text: Text): seq<Pair>
    decreases |text|
  {
    if text == [] then [] else
    if PairAtFront(text) then
      var n := NameRun(text);
      var end := n + 1 + ValueRun(text[n + 1..]);
      [Pair(text[..n], text[n + 1..end])] + Pairs(text[end..])
    else Pairs(text[1..])
  }

  function UpToNul(text: Text): Text {
    if text == [] || text[0] == NUL then [] else [text[0]] + UpToNul(text[1..])
  }

  function ParsePairs(line: Text): seq<Pair> {
    Pairs(UpToNul(line))
  }

  // ---- Printing ----

  predicate Name(text: Text) {
    text != [] && forall i | 0 <= i < |text| :: NameByte(text[i])
  }

  predicate Printable(text: Text) {
    text != [] && forall i | 0 <= i < |text| :: ValueByte(text[i])
  }

  predicate Entry(pair: Pair) {
    Name(pair.key) && Printable(pair.value)
  }

  predicate Entries(pairs: seq<Pair>) {
    forall i | 0 <= i < |pairs| :: Entry(pairs[i])
  }

  function Item(pair: Pair): Text {
    pair.key + [EQUALS] + pair.value
  }

  function Join(items: seq<Text>, separator: byte): Text {
    if items == [] then []
    else if |items| == 1 then items[0]
    else items[0] + [separator] + Join(items[1..], separator)
  }

  function Items(pairs: seq<Pair>): (items: seq<Text>)
    ensures |items| == |pairs|
  {
    seq(|pairs|, i requires 0 <= i < |pairs| => Item(pairs[i]))
  }

  function PrintPairs(pairs: seq<Pair>): Text {
    Join(Items(pairs), COMMA)
  }

  method FormatPairs(pairs: seq<Pair>) returns (text: Text)
    ensures text == PrintPairs(pairs)
  {
    var items: seq<Text> := [];
    for i := 0 to |pairs|
      invariant items == Items(pairs[..i])
    {
      items := items + [Item(pairs[i])];
    }
    assert pairs[..|pairs|] == pairs;
    text := Join(items, COMMA);
  }

  // ---- What is printed is what is found ----

  lemma {:induction false} NameRunStops(name: Text, rest: Text)
    requires forall i | 0 <= i < |name| :: NameByte(name[i])
    requires rest == [] || !NameByte(rest[0])
    ensures NameRun(name + rest) == |name|
  {
    if name == [] {
      Nothing(rest);
    } else {
      assert (name + rest)[1..] == name[1..] + rest;
      NameRunStops(name[1..], rest);
    }
  }

  lemma {:induction false} ValueRunStops(value: Text, rest: Text)
    requires forall i | 0 <= i < |value| :: ValueByte(value[i])
    requires rest == [] || !ValueByte(rest[0])
    ensures ValueRun(value + rest) == |value|
  {
    if value == [] {
      Nothing(rest);
    } else {
      assert (value + rest)[1..] == value[1..] + rest;
      ValueRunStops(value[1..], rest);
    }
  }

  lemma ItemParts(pair: Pair, rest: Text)
    ensures var text, n, end := Item(pair) + rest, |pair.key|, |Item(pair)|;
            && end == n + 1 + |pair.value| <= |text| && text[n] == EQUALS
            && text[..n] == pair.key && text[n + 1..] == pair.value + rest
            && text[n + 1..end] == pair.value && text[end..] == rest
  {
  }

  lemma PairFound(pair: Pair, rest: Text)
    requires Entry(pair) && (rest == [] || !ValueByte(rest[0]))
    ensures Pairs(Item(pair) + rest) == [pair] + Pairs(rest)
  {
    var text := Item(pair) + rest;
    ItemParts(pair, rest);
    assert text == pair.key + text[|pair.key|..];
    NameRunStops(pair.key, text[|pair.key|..]);
    ValueRunStops(pair.value, rest);
  }

  lemma CommaSkipped(rest: Text)
    ensures Pairs([COMMA] + rest) == Pairs(rest)
  {
    DropPrefix([COMMA], rest);
    assert NameRun([COMMA] + rest) == 0;
  }

  lemma {:induction false} PairsOfPrint(pairs: seq<Pair>)
    requires Entries(pairs)
    ensures Pairs(PrintPairs(pairs)) == pairs
  {
    if pairs != [] {
      var first, rest := pairs[0], pairs[1..];
      assert Items(pairs)[1..] == Items(rest);
      Rejoin(pairs);
      if rest == [] {
        Nothing(Item(first));
        PairFound(first, []);
      } else {
        Associate(Item(first), [COMMA], PrintPairs(rest));
        PairFound(first, [COMMA] + PrintPairs(rest));
        CommaSkipped(PrintPairs(rest));
        PairsOfPrint(rest);
      }
    }
  }

  // ---- NUL ----

  predicate Without(b: byte, text: Text) {
    forall i | 0 <= i < |text| :: text[i] != b
  }

  lemma {:induction false} UpToNulPrefix(text: Text)
    ensures UpToNul(text) <= text && Without(NUL, UpToNul(text))
    ensures Without(NUL, text) ==> UpToNul(text) == text
  {
    if text != [] && text[0] != NUL {
      UpToNulPrefix(text[1..]);
    }
  }

  lemma {:induction false} PairsWithin(text: Text, b: byte)
    requires Without(b, text)
    ensures forall i | 0 <= i < |Pairs(text)| :: Without(b, Pairs(text)[i].value)
    decreases |text|
  {
    if text != [] {
      if PairAtFront(text) {
        var n := NameRun(text);
        PairsWithin(text[n + 1 + ValueRun(text[n + 1..])..], b);
      } else {
        PairsWithin(text[1..], b);
      }
    }
  }

  lemma {:induction false} WithoutJoin(items: seq<Text>, separator: byte, b: byte)
    requires b != separator && forall i | 0 <= i < |items| :: Without(b, items[i])
    ensures Without(b, Join(items, separator))
  {
    if |items| > 1 {
      WithoutJoin(items[1..], separator, b);
    }
  }

  lemma NameWithout(text: Text, b: byte)
    requires Name(text) && !NameByte(b)
    ensures Without(b, text)
  {
  }

  lemma WithoutItem(pair: Pair, b: byte)
    requires Entry(pair) && !NameByte(b) && b != EQUALS && Without(b, pair.value)
    ensures Without(b, Item(pair))
  {
    NameWithout(pair.key, b);
  }

  lemma WithoutPrint(pairs: seq<Pair>, b: byte)
    requires Entries(pairs) && !NameByte(b) && b != EQUALS && b != COMMA
    requires forall i | 0 <= i < |pairs| :: Without(b, pairs[i].value)
    ensures Without(b, PrintPairs(pairs))
  {
    forall i | 0 <= i < |pairs| ensures Without(b, Items(pairs)[i]) {
      assert Without(b, pairs[i].value);
      WithoutItem(pairs[i], b);
    }
    WithoutJoin(Items(pairs), COMMA, b);
  }

  // ---- Parameters ----

  type Parameters = map<Text, Text>

  /** Pairs are inserted in order: a repeated key keeps its last value. */
  function MapOf(pairs: seq<Pair>): Parameters {
    if pairs == [] then map[] else
    var n := |pairs| - 1;
    MapOf(pairs[..n])[pairs[n].key := pairs[n].value]
  }

  datatype ParamsReply = ParamsReply(status: Frame.Status, values: Parameters)

  function EncodeSetParam(pairs: seq<Pair>, session: Frame.Session): seq<byte> {
    Frame.EncodeFrame(GET_PARAM, session, PrintPairs(pairs))
  }

  function DecodeGetParam(data: seq<byte>, strip: bool): ParamsReply {
    var frame := Frame.DecodeGeneric(data, strip);
    ParamsReply(frame.status, if frame.status == Frame.Ok then MapOf(ParsePairs(frame.payload)) else map[])
  }

  method InsertPairs(payload: Text) returns (values: Parameters)
    ensures values == MapOf(ParsePairs(payload))
  {
    values := map[];
    if payload != [] {
      var pairs := ParsePairs(payload);
      for i := 0 to |pairs|
        invariant values == MapOf(pairs[..i])
      {
        values := values[pairs[i].key := pairs[i].value];
        assert pairs[..i + 1][..i] == pairs[..i];
      }
      assert pairs[..|pairs|] == pairs;
    }
  }

  /** A map as the encoder iterates it: every key once. */
  predicate Iterates(pairs: seq<Pair>, values: Parameters) {
    && (forall i, j | 0 <= i < j < |pairs| :: pairs[i].key != pairs[j].key)
    && (forall i | 0 <= i < |pairs| :: pairs[i].key in values && values[pairs[i].key] == pairs[i].value)
    && values.Keys == set i | 0 <= i < |pairs| :: pairs[i].key
  }

  lemma {:induction false} MapOfContents(pairs: seq<Pair>)
    ensures MapOf(pairs).Keys == set i | 0 <= i < |pairs| :: pairs[i].key
    ensures forall key | key in MapOf(pairs) :: exists i :: 0 <= i < |pairs| && pairs[i] == Pair(key, MapOf(pairs)[key])
  {
    if pairs != [] {
      var n := |pairs| - 1;
      MapOfContents(pairs[..n]);
      forall key | key in MapOf(pairs)
        ensures exists i :: 0 <= i < |pairs| && pairs[i] == Pair(key, MapOf(pairs)[key])
      {
        if key == pairs[n].key {
          assert pairs[n] == Pair(key, MapOf(pairs)[key]);
        } else {
          var i :| 0 <= i < n && pairs[..n][i] == Pair(key, MapOf(pairs[..n])[key]);
          assert pairs[i] == Pair(key, MapOf(pairs)[key]);
        }
      }
    }
  }

  /** A value stands in the map under its key unless a later pair has the same key. */
  lemma {:induction false} LastValueWins(pairs: seq<Pair>, j: nat)
    requires j < |pairs| && forall k | j < k < |pairs| :: pairs[k].key != pairs[j].key
    ensures pairs[j].key in MapOf(pairs) && MapOf(pairs)[pairs[j].key] == pairs[j].value
  {
    var n := |pairs| - 1;
    if j < n {
      LastValueWins(pairs[..n], j);
    }
  }

  lemma IteratedMap(pairs: seq<Pair>, values: Parameters)
    requires Iterates(pairs, values)
    ensures MapOf(pairs) == values
  {
    MapOfContents(pairs);
  }

  predicate NulFree(values: Parameters) {
    forall key | key in values :: Without(NUL, values[key])
  }

  lemma ParsedWithoutNul(payload: Text)
    ensures NulFree(MapOf(ParsePairs(payload)))
  {
    var pairs := ParsePairs(payload);
    UpToNulPrefix(payload);
    PairsWithin(UpToNul(payload), NUL);
    MapOfContents(pairs);
  }

  lemma NulFreeRead(pairs: seq<Pair>, values: Parameters)
    requires Entries(pairs) && Iterates(pairs, values) && NulFree(values)
    ensures MapOf(ParsePairs(PrintPairs(pairs))) == values
  {
    NulFreePairs(pairs, values);
    IteratedMap(pairs, values);
  }

  lemma NulFreePairs(pairs: seq<Pair>, values: Parameters)
    requires Entries(pairs) && Iterates(pairs, values) && NulFree(values)
    ensures ParsePairs(PrintPairs(pairs)) == pairs
  {
    forall i | 0 <= i < |pairs| ensures Without(NUL, pairs[i].value) {
      assert pairs[i].key in values;
    }
    WithoutPrint(pairs, NUL);
    UpToNulPrefix(PrintPairs(pairs));
    PairsOfPrint(pairs);
  }

  // ---- Text that does not fit a frame ----

  /** What printing the pairs costs: a key, a value, an equals sign and a separator each. */
  function Weight(pairs: seq<Pair>): nat {
    if pairs == [] then 0 else |pairs[0].key| + |pairs[0].value| + 2 + Weight(pairs[1..])
  }

  lemma {:induction false} PrintLength(pairs: seq<Pair>)
    requires pairs != []
    ensures |PrintPairs(pairs)| + 1 == Weight(pairs)
  {
    assert Items(pairs)[1..] == Items(pairs[1..]);
    if |pairs| > 1 {
      PrintLength(pairs[1..]);
    }
  }

  lemma {:induction false} ValueRunEnds(text: Text)
    ensures ValueRun(text) == |text| || !ValueByte(text[ValueRun(text)])
  {
    if text != [] && ValueByte(text[0]) {
      ValueRunEnds(text[1..]);
    }
  }

  /** The pair at the front and what follows it: nothing, or a separator that starts no pair. */
  lemma FrontPair(text: Text) returns (first: Pair, rest: Text)
    requires PairAtFront(text)
    ensures Pairs(text) == [first] + Pairs(rest) && |first.key| + 1 + |first.value| + |rest| == |text|
    ensures |first.key| > 0 && (rest != [] ==> Pairs(rest) == Pairs(rest[1..]))
  {
    hide NameRun, ValueRun, ValueByte;
    var n := NameRun(text);
    var v := ValueRun(text[n + 1..]);
    first, rest := Pair(text[..n], text[n + 1..n + 1 + v]), text[n + 1 + v..];
    ValueRunEnds(text[n + 1..]);
    if rest != [] {
      assert rest[0] == text[n + 1..][v];
      SeparatorSkipped(rest);
    }
  }

  lemma SeparatorSkipped(text: Text)
    requires text != [] && !ValueByte(text[0])
    ensures Pairs(text) == Pairs(text[1..])
  {
    assert NameRun(text) == 0;
  }

  /** Separate pairs are found in separate places: printing them again is never longer than the text. */
  lemma {:induction false} FoundFits(text: Text)
    ensures Weight(Pairs(text)) <= |text| + 1
    decreases |text|
  {
    hide PairAtFront;
    if text != [] {
      if PairAtFront(text) {
        var first, rest := FrontPair(text);
        DropPrefix([first], Pairs(rest));
        if rest != [] {
          FoundFits(rest[1..]);
        } else {
          assert Pairs(rest) == [];
        }
      } else {
        FoundFits(text[1..]);
      }
    }
  }

  lemma {:induction false} WeightSplit(left: seq<Pair>, pair: Pair, right: seq<Pair>)
    ensures Weight(left + [pair] + right) == Weight(left + right) + |pair.key| + |pair.value| + 2
  {
    if left == [] {
      assert left + [pair] + right == [pair] + right && left + right == right;
      DropPrefix([pair], right);
    } else {
      WeightSplit(left[1..], pair, right);
      assert (left + [pair] + right)[1..] == left[1..] + [pair] + right;
      assert (left + right)[1..] == left[1..] + right;
    }
  }

  lemma StillThere(found: seq<Pair>, k: nat, pair: Pair)
    requires k < |found| && found[k] != pair && pair in found
    ensures pair in found[..k] + found[k + 1..]
  {
    var m :| 0 <= m < |found| && found[m] == pair;
    assert (found[..k] + found[k + 1..])[if m < k then m else m - 1] == pair;
  }

  /** Pairs with different keys that are all among those found weigh no more than what was found. */
  lemma {:induction false} WeightWithin(pairs: seq<Pair>, found: seq<Pair>)
    requires forall i, j | 0 <= i < j < |pairs| :: pairs[i].key != pairs[j].key
    requires forall i | 0 <= i < |pairs| :: pairs[i] in found
    ensures Weight(pairs) <= Weight(found)
  {
    if pairs != [] {
      var k :| 0 <= k < |found| && found[k] == pairs[0];
      var others := found[..k] + found[k + 1..];
      assert found == found[..k] + [pairs[0]] + found[k + 1..];
      WeightSplit(found[..k], pairs[0], found[k + 1..]);
      forall i | 0 <= i < |pairs[1..]| ensures pairs[1..][i] in others {
        StillThere(found, k, pairs[i + 1]);
      }
      WeightWithin(pairs[1..], others);
    }
  }

  /** A payload that reads back as the map is at least as long as the map's own print. */
  lemma ReadBackIsLong(pairs: seq<Pair>, values: Parameters, payload: Text)
    requires Iterates(pairs, values) && MapOf(ParsePairs(payload)) == values
    ensures |PrintPairs(pairs)| <= |payload|
  {
    if pairs != [] {
      var found := ParsePairs(payload);
      MapOfContents(found);
      forall i | 0 <= i < |pairs| ensures pairs[i] in found {
        assert pairs[i].key in MapOf(found);
      }
      WeightWithin(pairs, found);
      PrintLength(pairs);
      FoundFits(UpToNul(payload));
      UpToNulPrefix(payload);
    }
  }

  predicate ContentFits(pairs: seq<Pair>, session: Frame.Session) {
    |Frame.SessionBlock(session)| + |PrintPairs(pairs)| < 65536
  }

  lemma OversizedIsLost(pairs: seq<Pair>, values: Parameters, session: Frame.Session, rest: seq<byte>)
    requires Iterates(pairs, values) && !ContentFits(pairs, session)
    ensures DecodeGetParam(EncodeSetParam(pairs, session) + rest, session.InSession?) != ParamsReply(Frame.Ok, values)
  {
    hide Frame.DecodeGeneric, Frame.Wrap, MapOf, ParsePairs, PrintPairs;
    var data := EncodeSetParam(pairs, session) + rest;
    var content := Frame.SessionBlock(session) + PrintPairs(pairs);
    var frame := Frame.DecodeGeneric(data, session.InSession?);
    Frame.LengthField(Frame.PROTOCOL_VERSION, GET_PARAM, content, rest);
    if frame.status == Frame.Ok && MapOf(ParsePairs(frame.payload)) == values {
      Frame.PayloadFits(data, session.InSession?);
      ReadBackIsLong(pairs, values, frame.payload);
    }
  }

  /**
   Whatever map of named, non-empty, comma- and tab-free values is encoded, in either session mode and
   whatever follows the frame, decoding returns the same map exactly when no value holds a NUL and the
   length field can hold the content.
   */
  lemma ParametersRoundTripIff(pairs: seq<Pair>, values: Parameters, session: Frame.Session, rest: seq<byte>)
    requires Entries(pairs) && Iterates(pairs, values)
    ensures DecodeGetParam(EncodeSetParam(pairs, session) + rest, session.InSession?) == ParamsReply(Frame.Ok, values)
            <==> NulFree(values) && ContentFits(pairs, session)
  {
    hide Frame.DecodeGeneric, Frame.Wrap, MapOf, ParsePairs, PrintPairs;
    if ContentFits(pairs, session) {
      Frame.RoundTripIff(GET_PARAM, session, PrintPairs(pairs), rest);
      ParsedWithoutNul(PrintPairs(pairs));
      if NulFree(values) {
        NulFreeRead(pairs, values);
      }
    } else {
      OversizedIsLost(pairs, values, session, rest);
    }
  }

  lemma {:induction false} UpToNulCut(head: Text, tail: Text)
    requires Without(NUL, head)
    ensures UpToNul(head + [NUL] + tail) == head
  {
    if head != [] {
      assert (head + [NUL] + tail)[1..] == head[1..] + [NUL] + tail;
      UpToNulCut(head[1..], tail);
    }
  }

  /** A value is read back only up to its first NUL. */
  lemma NulCutsValue(key: Text, head: Text, tail: Text)
    requires Name(key) && Printable(head) && Without(NUL, head)
    ensures ParsePairs(PrintPairs([Pair(key, head + [NUL] + tail)])) == [Pair(key, head)]
  {
    var cut := Item(Pair(key, head));
    assert PrintPairs([Pair(key, head + [NUL] + tail)]) == cut + [NUL] + tail;
    WithoutItem(Pair(key, head), NUL);
    UpToNulCut(cut, tail);
    Nothing(cut);
    PairFound(Pair(key, head), []);
  }

  // ---- Numbers in text ----

  predicate Digit(b: byte) {
    0x30 <= b <= 0x39
  }

  predicate Space(b: byte) {
    0x09 <= b <= 0x0D || b == 0x20 || b == 0x85 || b == 0xA0
  }

  function TrimLeft(text: Text): Text {
    if text != [] && Space(text[0]) then TrimLeft(text[1..]) else text
  }

  function TrimRight(text: Text): Text {
    if text != [] && Space(text[|text| - 1]) then TrimRight(text[..|text| - 1]) else text
  }

  predicate AllDigits(text: Text) {
    forall i | 0 <= i < |text| :: Digit(text[i])
  }

  function DigitsValue(digits: Text): nat
    requires AllDigits(digits)
  {
    if digits == [] then 0 else 10 * DigitsValue(digits[..|digits| - 1]) + digits[|digits| - 1] as int - 0x30
  }

  /** The lenient conversion to a 32-bit integer: anything that is not one reads as zero. */
  function ToInt(text: Text): int {
    var trimmed := TrimRight(TrimLeft(text));
    var signed := trimmed != [] && (trimmed[0] == 0x2B || trimmed[0] == 0x2D);
    var digits := if signed then trimmed[1..] else trimmed;
    if digits == [] || !AllDigits(digits) then 0 else
    var n: int := DigitsValue(digits) * if signed && trimmed[0] == 0x2D then -1 else 1;
    if -0x8000_0000 <= n < 0x8000_0000 then n else 0
  }

  function Decimal(n: nat): (text: Text)
    ensures text != [] && AllDigits(text)
  {
    if n < 10 then [(0x30 + n) as byte] else Decimal(n / 10) + [(0x30 + n % 10) as byte]
  }

  lemma {:induction false} DecimalValue(n: nat)
    ensures DigitsValue(Decimal(n)) == n
  {
    if n >= 10 {
      DecimalValue(n / 10);
      assert Decimal(n)[..|Decimal(n)| - 1] == Decimal(n / 10);
    }
  }

  lemma IntRoundTrip(n: nat)
    requires n < 0x8000_0000
    ensures ToInt(Decimal(n)) == n
  {
    var text := Decimal(n);
    DecimalValue(n);
    assert Digit(text[0]) && Digit(text[|text| - 1]);
    assert TrimLeft(text) == text;
    assert TrimRight(text) == text;
  }

  /** A sign is read, blanks around the number are not, and a number that is too large reads as zero. */
  lemma SignedIntRead(n: nat, minus: bool)
    ensures var text := [' ' as byte] + [if minus then '-' as byte else '+' as byte] + Decimal(n) + ['\r' as byte];
            ToInt(text) == (if minus && n <= 0x8000_0000 then -(n as int)
                            else if !minus && n < 0x8000_0000 then n else 0)
  {
    var digits := Decimal(n);
    var number := [if minus then '-' as byte else '+' as byte] + digits;
    var text := [' ' as byte] + [if minus then '-' as byte else '+' as byte] + digits + ['\r' as byte];
    DecimalValue(n);
    assert text[1..] == number + ['\r' as byte];
    assert TrimLeft(text) == TrimLeft(text[1..]) == number + ['\r' as byte];
    assert Digit(number[|number| - 1]);
    assert (number + ['\r' as byte])[..|number|] == number;
    assert TrimRight(number + ['\r' as byte]) == TrimRight(number) == number;
    assert number[1..] == digits;
  }

  // ---- Table schemas ----

  datatype Table = Table(name: Text, index: int, fields: seq<Field>)

  function FieldOf(pair: Pair): Field
    requires pair.value != []
  {
    Field(pair.key, pair.value[0], ToInt(pair.value[1..]))
  }

  function FieldsOf(pairs: seq<Pair>): seq<Field> {
    if pairs == [] then [] else
    var n := |pairs| - 1;
    FieldsOf(pairs[..n]) + if pairs[n].value == [] then [] else [FieldOf(pairs[n])]
  }

  lemma FieldsNext(pairs: seq<Pair>, i: nat)
    requires 1 <= i < |pairs|
    ensures FieldsOf(pairs[1..i + 1]) ==
            FieldsOf(pairs[1..i]) + if pairs[i].value == [] then [] else [FieldOf(pairs[i])]
  {
    assert pairs[1..i + 1][..i - 1] == pairs[1..i];
  }

  function TableOf(pairs: seq<Pair>): Table
    requires pairs != []
  {
    Table(pairs[0].key, ToInt(pairs[0].value), FieldsOf(pairs[1..]))
  }

  function LineTables(line: Text): seq<Table> {
    var pairs := ParsePairs(line);
    if line == [] || pairs == [] then [] else [TableOf(pairs)]
  }

  function TablesOf(lines: seq<Text>): seq<Table> {
    if lines == [] then [] else TablesOf(lines[..|lines| - 1]) + LineTables(lines[|lines| - 1])
  }

  lemma TablesNext(lines: seq<Text>, i: nat)
    requires i < |lines|
    ensures TablesOf(lines[..i + 1]) == TablesOf(lines[..i]) + LineTables(lines[i])
  {
    assert lines[..i + 1][..i] == lines[..i];
  }

  function Find(text: Text, b: byte): (n: nat)
    ensures n <= |text|
    ensures Without(b, text[..n]) && (n < |text| ==> text[n] == b)
  {
    if text == [] || text[0] == b then 0 else
    var n := 1 + Find(text[1..], b);
    assert text[..n] == [text[0]] + text[1..][..n - 1];
    n
  }

  function Split(text: Text, separator: byte): seq<Text>
    decreases |text|
  {
    var n := Find(text, separator);
    if n == |text| then [text] else [text[..n]] + Split(text[n + 1..], separator)
  }

  /** The tables a configuration reply describes, one a line. */
  function DecodeTables(payload: Text): seq<Table> {
    TablesOf(Split(payload, NEWLINE))
  }

  method ReadFields(pairs: seq<Pair>) returns (fields: seq<Field>)
    requires pairs != []
    ensures fields == FieldsOf(pairs[1..])
  {
    fields := [];
    for i := 1 to |pairs|
      invariant fields == FieldsOf(pairs[1..i])
    {
      FieldsNext(pairs, i);
      if pairs[i].value != [] {
        fields := fields + [FieldOf(pairs[i])];
      }
    }
    assert pairs[1..|pairs|] == pairs[1..];
  }

  method ReadTables(payload: Text) returns (tables: seq<Table>)
    ensures tables == DecodeTables(payload)
  {
    hide ParsePairs;
    tables := [];
    var lines := Split(payload, NEWLINE);
    for i := 0 to |lines|
      invariant tables == TablesOf(lines[..i])
    {
      TablesNext(lines, i);
      if lines[i] == [] { continue; }
      var pairs := ParsePairs(lines[i]);
      if pairs == [] { continue; }
      var fields := ReadFields(pairs);
      tables := tables + [Table(pairs[0].key, ToInt(pairs[0].value), fields)];
    }
    assert lines[..|lines|] == lines;
  }

  // ---- A panel's schema survives the trip ----

  predicate Small(n: int) {
    0 <= n < 0x8000_0000
  }

  predicate GoodField(field: Field) {
    Name(field.name) && ValueByte(field.kind) && field.kind != NEWLINE && field.kind != NUL && Small(field.index)
  }

  predicate GoodTable(table: Table) {
    Name(table.name) && Small(table.index) && forall i | 0 <= i < |table.fields| :: GoodField(table.fields[i])
  }

  predicate GoodTables(tables: seq<Table>) {
    forall i | 0 <= i < |tables| :: GoodTable(tables[i])
  }

  function FieldPair(field: Field): Pair
    requires GoodField(field)
  {
    Pair(field.name, [field.kind] + Decimal(field.index))
  }

  function FieldPairs(fields: seq<Field>): (pairs: seq<Pair>)
    requires forall i | 0 <= i < |fields| :: GoodField(fields[i])
    ensures |pairs| == |fields|
  {
    seq(|fields|, i requires 0 <= i < |fields| => FieldPair(fields[i]))
  }

  function TablePairs(table: Table): (pairs: seq<Pair>)
    requires GoodTable(table)
    ensures pairs != []
  {
    [Pair(table.name, Decimal(table.index))] + FieldPairs(table.fields)
  }

  function Lines(tables: seq<Table>): (lines: seq<Text>)
    requires GoodTables(tables)
    ensures |lines| == |tables|
  {
    seq(|tables|, i requires 0 <= i < |tables| => PrintPairs(TablePairs(tables[i])))
  }

  function PrintTables(tables: seq<Table>): Text
    requires GoodTables(tables)
  {
    Join(Lines(tables), NEWLINE)
  }

  /** Bytes that may stand in a schema line's values. */
  predicate Plain(pair: Pair) {
    Entry(pair) && Without(NUL, pair.value) && Without(NEWLINE, pair.value)
  }

  lemma TablePairsPlain(table: Table)
    requires GoodTable(table)
    ensures forall i | 0 <= i < |TablePairs(table)| :: Plain(TablePairs(table)[i])
  {
    forall i | 0 <= i < |TablePairs(table)| ensures Plain(TablePairs(table)[i]) {
      if i > 0 {
        assert GoodField(table.fields[i - 1]);
        FieldPairPlain(table.fields[i - 1]);
      }
    }
  }

  lemma FieldPairPlain(field: Field)
    requires GoodField(field)
    ensures Plain(FieldPair(field))
  {
  }

  lemma LinePrinted(table: Table)
    requires GoodTable(table)
    ensures var line := PrintPairs(TablePairs(table));
            ParsePairs(line) == TablePairs(table) && line != [] && Without(NEWLINE, line)
  {
    var pairs := TablePairs(table);
    TablePairsPlain(table);
    WithoutPrint(pairs, NUL);
    WithoutPrint(pairs, NEWLINE);
    UpToNulPrefix(PrintPairs(pairs));
    PairsOfPrint(pairs);
  }

  lemma FieldRead(field: Field)
    requires GoodField(field)
    ensures FieldOf(FieldPair(field)) == field
  {
    IntRoundTrip(field.index);
    DropPrefix([field.kind], Decimal(field.index));
  }

  lemma {:induction false} FieldsPrinted(fields: seq<Field>)
    requires forall i | 0 <= i < |fields| :: GoodField(fields[i])
    ensures FieldsOf(FieldPairs(fields)) == fields
  {
    if fields != [] {
      var n := |fields| - 1;
      var front := fields[..n];
      FieldsPrinted(front);
      assert FieldPairs(fields)[..n] == FieldPairs(front);
      FieldRead(fields[n]);
      assert fields == front + [fields[n]];
    }
  }

  lemma LineRead(table: Table)
    requires GoodTable(table)
    ensures LineTables(PrintPairs(TablePairs(table))) == [table]
  {
    LinePrinted(table);
    IntRoundTrip(table.index);
    DropPrefix([Pair(table.name, Decimal(table.index))], FieldPairs(table.fields));
    FieldsPrinted(table.fields);
  }

  lemma {:induction false} FindSeparator(line: Text, b: byte, rest: Text)
    requires Without(b, line)
    ensures Find(line, b) == |line| && Find(line + [b] + rest, b) == |line|
  {
    if line != [] {
      assert (line + [b] + rest)[1..] == line[1..] + [b] + rest;
      FindSeparator(line[1..], b, rest);
    }
  }

  lemma {:induction false} SplitJoined(lines: seq<Text>, b: byte)
    requires lines != [] && forall i | 0 <= i < |lines| :: Without(b, lines[i])
    ensures Split(Join(lines, b), b) == lines
  {
    if |lines| == 1 {
      FindSeparator(lines[0], b, []);
    } else {
      var rest := Join(lines[1..], b);
      FindSeparator(lines[0], b, rest);
      SplitJoined(lines[1..], b);
      var text := lines[0] + [b] + rest;
      assert text[..|lines[0]|] == lines[0] && text[|lines[0]| + 1..] == rest;
      Rejoin(lines);
    }
  }

  lemma {:induction false} TablesPrinted(tables: seq<Table>)
    requires GoodTables(tables)
    ensures TablesOf(Lines(tables)) == tables
  {
    hide LineTables, PrintPairs, TablePairs;
    if tables != [] {
      var n := |tables| - 1;
      assert Lines(tables)[..n] == Lines(tables[..n]);
      TablesPrinted(tables[..n]);
      LineRead(tables[n]);
      assert tables == tables[..n] + [tables[n]];
    }
  }

  /** The schema decoded from a printed configuration is the panel's schema. */
  lemma TablesRoundTrip(tables: seq<Table>)
    requires GoodTables(tables)
    ensures DecodeTables(PrintTables(tables)) == tables
  {
    if tables == [] {
      var lines := Split([], NEWLINE);
      assert lines == [[]] && lines[..0] == [];
      assert TablesOf(lines) == TablesOf([]) + LineTables([]);
    } else {
      forall i | 0 <= i < |tables| ensures Without(NEWLINE, Lines(tables)[i]) {
        LinePrinted(tables[i]);
      }
      SplitJoined(Lines(tables), NEWLINE);
      TablesPrinted(tables);
    }
  }
}
