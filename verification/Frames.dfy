/** Server-side frames (crates/protocol/src/frames.rs): producer acknowledgements, durable
    deliveries with their length formula, and acknowledgement subjects. */
module Frames {
  import opened Common
  import opened Utf8
  import opened Text
  import opened Numerals

  type U16 = n: nat | n <= 0xFFFF

  type U32 = n: nat | n <= U32_MAX

  type U64 = n: nat | n <= U64_MAX

  datatype AckLevel = Accepted | Durable | HighDurability | ClusterDurable

  datatype Position = Position(stream: string, partition: U32, offset: U64, partitioningEpoch: U64, leaderEpoch: U64)

  /** What the server reports about one produced message. */
  datatype AckReport = AckReport(
    msgId: string, level: AckLevel, retained: bool, sequence: Option<U64>, position: Option<Position>,
    contract: Option<U16>)

  type Headers = seq<(string, string)>

  datatype Delivery = Delivery(
    consumer: string, subject: string, reply: Option<string>, headers: Headers, stream: string, partition: U32,
    offset: U64,
    key: Option<Octets>, timestamp: U64, attempt: U32, leaseDeadline: U64, sequence: U64, deliveryId: U64,
    payload: Octets)

  const CRLF := "\r\n"

  const CONTRACT := "contract="

  // ----- producer acknowledgements -----

  function LevelText(level: AckLevel): string {
    match level
    case Accepted => "0"
    case Durable => "1"
    case HighDurability => "2"
    case ClusterDurable => "3"
  }

  function FlagText(flag: bool): string { if flag then "true" else "false" }

  function SeqText(n: Option<U64>): string { if n.Some? then Decimal(n.value) else "-" }

  function AckHead(a: AckReport): seq<string> {
    ["P-ACK", a.msgId, LevelText(a.level), "OK", FlagText(a.retained), SeqText(a.sequence)]
  }

  function PositionTokens(position: Option<Position>): seq<string> {
    match position
    case None => []
    case Some(p) =>
      [p.stream, Decimal(p.partition), Decimal(p.offset), Decimal(p.partitioningEpoch), Decimal(p.leaderEpoch)]
  }

  function ContractTokens(contract: Option<U16>): seq<string> {
    if contract.Some? then [CONTRACT + Decimal(contract.value)] else []
  }

  function AckTokens(a: AckReport): seq<string> {
    AckHead(a) + PositionTokens(a.position) + ContractTokens(a.contract)
  }

  function AckLine(a: AckReport): string { Join(AckTokens(a), ' ') }

  /** A line with more tokens behind it. */
  function Extended(line: string, tokens: seq<string>): string {
    if tokens == [] then line else line + " " + Join(tokens, ' ')
  }

  lemma {:induction false} JoinAppends(xs: seq<string>, ys: seq<string>)
    requires xs != []
    ensures Join(xs + ys, ' ') == Extended(Join(xs, ' '), ys)
  {
    if |xs| == 1 || ys == [] {
      assert ys == [] ==> xs + ys == xs;
      assert (xs + ys)[1..] == xs[1..] + ys;
      assert |xs| == 1 ==> xs[1..] + ys == ys;
    } else {
      JoinAppends(xs[1..], ys);
      assert (xs + ys)[1..] == xs[1..] + ys;
    }
  }

  lemma JoinParts(head: seq<string>, middle: seq<string>, tail: seq<string>)
    requires head != []
    ensures Join(head + middle + tail, ' ') == Extended(Extended(Join(head, ' '), middle), tail)
  {
    hide Join, Extended;
    JoinAppends(head, middle);
    JoinAppends(head + middle, tail);
  }

  /** Cutting the CRLF and appending more tokens extends the line. */
  method ExtendFrame(frame: string, tokens: seq<string>, ghost line: string) returns (r: string)
    requires frame == line + CRLF && tokens != []
    ensures r == Extended(line, tokens) + CRLF
  {
    hide Join;
    r := frame[..|frame| - 2];
    assert r == line;
    r := r + (" " + Join(tokens, ' ') + CRLF);
  }

  /** The frame is built, cut before its CRLF and extended, once for each optional part. */
  method PrintAck(a: AckReport) returns (frame: string)
    ensures frame == AckLine(a) + CRLF
  {
    JoinParts(AckHead(a), PositionTokens(a.position), ContractTokens(a.contract));
    hide AckHead, Join, Decimal;
    ghost var line := Join(AckHead(a), ' ');
    frame := Join(AckHead(a), ' ') + CRLF;
    if a.position.Some? {
      frame := ExtendFrame(frame, PositionTokens(a.position), line);
    }
    line := Extended(line, PositionTokens(a.position));
    assert frame == line + CRLF;
    hide PositionTokens, Extended;
    if a.contract.Some? {
      frame := ExtendFrame(frame, ContractTokens(a.contract), line);
    } else {
      assert Extended(line, []) == line by { NothingExtends(line); }
    }
  }

  lemma NothingExtends(line: string)
    ensures Extended(line, []) == line
  {
  }

  // ----- durable deliveries -----

  function HeaderLine(header: (string, string)): string { header.0 + ": " + header.1 + CRLF }

  function HeaderLines(headers: Headers): string {
    if headers == [] then "" else HeaderLine(headers[0]) + HeaderLines(headers[1..])
  }

  function HeaderBlock(headers: Headers): string { "MORROW/1.0" + CRLF + HeaderLines(headers) + CRLF }

  method PrintHeaders(headers: Headers) returns (block: string)
    ensures block == HeaderBlock(headers)
  {
    block := "MORROW/1.0" + CRLF;
    for i := 0 to |headers|
      invariant block + HeaderLines(headers[i..]) == "MORROW/1.0" + CRLF + HeaderLines(headers)
    {
      assert headers[i..][1..] == headers[i + 1..];
      block := block + headers[i].0;
      block := block + ": ";
      block := block + headers[i].1;
      block := block + CRLF;
    }
    assert headers[|headers|..] == [];
    block := block + CRLF;
  }

  function HeadersLength(d: Delivery): nat { |Encode(HeaderBlock(d.headers))| }

  function TotalLength(d: Delivery): nat { HeadersLength(d) + |d.payload| }

  function ReplyText(reply: Option<string>): string { if reply.Some? then reply.value else "-" }

  function KeyText(key: Option<Octets>): string { if key.Some? then Hex(key.value) else "-" }

  function DeliveryTokens(d: Delivery): seq<string> {
    ["DDELIVER", d.consumer, d.subject, ReplyText(d.reply), d.stream,
     Decimal(d.partition), Decimal(d.offset), KeyText(d.key), Decimal(d.timestamp), Decimal(d.attempt),
     Decimal(d.leaseDeadline), Decimal(d.sequence), Decimal(d.deliveryId), Decimal(HeadersLength(d)),
     Decimal(TotalLength(d))]
  }

  function DeliveryLine(d: Delivery): string { Join(DeliveryTokens(d), ' ') }

  function DeliveryFrame(d: Delivery): Octets {
    Encode(DeliveryLine(d) + CRLF) + Encode(HeaderBlock(d.headers)) + d.payload + [13, 10]
  }

  method PrintDelivery(d: Delivery) returns (frame: Octets)
    ensures frame == DeliveryFrame(d)
  {
    var block := PrintHeaders(d.headers);
    var headersLength := |Encode(block)|;
    var totalLength := headersLength + |d.payload|;
    var reply := if d.reply.Some? then d.reply.value else "-";
    var key := "-";
    if d.key.Some? { key := PrintHex(d.key.value); }
    var header := Join(
      ["DDELIVER", d.consumer, d.subject, reply, d.stream, Decimal(d.partition), Decimal(d.offset), key,
       Decimal(d.timestamp), Decimal(d.attempt), Decimal(d.leaseDeadline), Decimal(d.sequence), Decimal(d.deliveryId),
       Decimal(headersLength), Decimal(totalLength)], ' ') + CRLF;
    frame := Encode(header);
    frame := frame + Encode(block);
    frame := frame + d.payload;
    frame := frame + [13, 10];
  }

  // ----- the length formula -----

  function HeaderBytes(headers: Headers): nat {
    if headers == [] then 0
    else |Encode(headers[0].0)| + 2 + |Encode(headers[0].1)| + 2 + HeaderBytes(headers[1..])
  }

  lemma {:induction false} HeaderLinesLength(headers: Headers)
    ensures |Encode(HeaderLines(headers))| == HeaderBytes(headers)
  {
    if headers != [] {
      hide Encode;
      var (name, value) := headers[0];
      EncodeConcat(HeaderLine(headers[0]), HeaderLines(headers[1..]));
      EncodeConcat(name + ": " + value, CRLF);
      EncodeConcat(name + ": ", value);
      EncodeConcat(name, ": ");
      AsciiLength(": ");
      AsciiLength(CRLF);
      HeaderLinesLength(headers[1..]);
    }
  }

  lemma HeaderBlockLength(headers: Headers)
    ensures |Encode(HeaderBlock(headers))| == 12 + HeaderBytes(headers) + 2
  {
    hide Encode;
    EncodeConcat("MORROW/1.0" + CRLF + HeaderLines(headers), CRLF);
    EncodeConcat("MORROW/1.0" + CRLF, HeaderLines(headers));
    AsciiLength("MORROW/1.0" + CRLF);
    AsciiLength(CRLF);
    HeaderLinesLength(headers);
  }

  /** Bytes of the tokens with one separator after each. */
  function TokenBytes(tokens: seq<string>): nat {
    if tokens == [] then 0 else |Encode(tokens[0])| + 1 + TokenBytes(tokens[1..])
  }

  lemma {:induction false} JoinedLength(tokens: seq<string>)
    requires tokens != []
    ensures |Encode(Join(tokens, ' '))| + 1 == TokenBytes(tokens)
  {
    assert |tokens| == 1 ==> tokens[1..] == [] && TokenBytes([]) == 0;
    if |tokens| > 1 {
      hide Encode;
      EncodeConcat(tokens[0] + " ", Join(tokens[1..], ' '));
      EncodeConcat(tokens[0], " ");
      AsciiLength(" ");
      JoinedLength(tokens[1..]);
    }
  }

  lemma {:induction false} TokenBytesConcat(xs: seq<string>, ys: seq<string>)
    ensures TokenBytes(xs + ys) == TokenBytes(xs) + TokenBytes(ys)
  {
    if xs == [] {
      assert xs + ys == ys;
    } else {
      TokenBytesConcat(xs[1..], ys);
      assert (xs + ys)[1..] == xs[1..] + ys;
    }
  }

  lemma FiveTokens(a: string, b: string, c: string, d: string, e: string)
    ensures TokenBytes([a, b, c, d, e]) == |Encode(a)| + |Encode(b)| + |Encode(c)| + |Encode(d)| + |Encode(e)| + 5
  {
    hide TokenBytes, Encode;
    OneMore(a, [b, c, d, e]);
    OneMore(b, [c, d, e]);
    OneMore(c, [d, e]);
    OneMore(d, [e]);
    OneMore(e, []);
    assert [a] + [b, c, d, e] == [a, b, c, d, e] && [b] + [c, d, e] == [b, c, d, e];
    assert [c] + [d, e] == [c, d, e] && [d] + [e] == [d, e] && [e] + [] == [e];
  }

  lemma OneMore(t: string, rest: seq<string>)
    ensures TokenBytes([t] + rest) == |Encode(t)| + 1 + TokenBytes(rest) && TokenBytes([]) == 0
  {
  }

  lemma DecimalLength(n: nat)
    ensures |Encode(Decimal(n))| == |Decimal(n)|
  {
    AsciiLength(Decimal(n));
  }

  lemma KeyLength(key: Option<Octets>)
    ensures |Encode(KeyText(key))| == if key.Some? then |key.value| * 2 else 1
  {
    if key.Some? { HexShape(key.value); }
    AsciiLength(KeyText(key));
  }

  /** The bytes of the protocol line, grouped as the formula adds them up. */
  lemma DeliveryLineLength(d: Delivery)
    ensures |Encode(DeliveryLine(d))| + 1 ==
            15 + 8 + |Encode(d.consumer)| + |Encode(d.subject)| + |Encode(ReplyText(d.reply))| + |Encode(d.stream)|
            + |Decimal(d.partition)| + |Decimal(d.offset)| + (if d.key.Some? then |d.key.value| * 2 else 1)
            + |Decimal(d.timestamp)| + |Decimal(d.attempt)| + |Decimal(d.leaseDeadline)| + |Decimal(d.sequence)|
            + |Decimal(d.deliveryId)| + |Decimal(HeadersLength(d))| + |Decimal(TotalLength(d))|
  {
    hide Encode, Decimal, HeadersLength, TotalLength, KeyText, ReplyText, Join, TokenBytes;
    var tokens := DeliveryTokens(d);
    var first, second, third := tokens[..5], tokens[5..10], tokens[10..];
    JoinedLength(tokens);
    TokenBytesConcat(first + second, third);
    TokenBytesConcat(first, second);
    assert tokens == first + second + third;
    FiveTokens(tokens[0], tokens[1], tokens[2], tokens[3], tokens[4]);
    FiveTokens(tokens[5], tokens[6], tokens[7], tokens[8], tokens[9]);
    FiveTokens(tokens[10], tokens[11], tokens[12], tokens[13], tokens[14]);
    assert first == [tokens[0], tokens[1], tokens[2], tokens[3], tokens[4]];
    assert second == [tokens[5], tokens[6], tokens[7], tokens[8], tokens[9]];
    assert third == [tokens[10], tokens[11], tokens[12], tokens[13], tokens[14]];
    AsciiLength("DDELIVER");
    KeyLength(d.key);
    DecimalLength(d.partition);
    DecimalLength(d.offset);
    DecimalLength(d.timestamp);
    DecimalLength(d.attempt);
    DecimalLength(d.leaseDeadline);
    DecimalLength(d.sequence);
    DecimalLength(d.deliveryId);
    DecimalLength(HeadersLength(d));
    DecimalLength(TotalLength(d));
  }

  /** `durable_message_encoded_len`: the length of the frame without building it. */
  method EncodedLength(d: Delivery) returns (length: nat)
    ensures length == |DeliveryFrame(d)|
  {
    hide Encode, Decimal, HeaderBlock, Join;
    var headersLength := 12 + HeaderBytes(d.headers) + 2;
    HeaderBlockLength(d.headers);
    var totalLength := headersLength + |d.payload|;
    var reply := if d.reply.Some? then d.reply.value else "-";
    var keyLength := if d.key.Some? then |d.key.value| * 2 else 1;
    var partition := CountDigits(d.partition);
    var offset := CountDigits(d.offset);
    var timestamp := CountDigits(d.timestamp);
    var attempt := CountDigits(d.attempt);
    var leaseDeadline := CountDigits(d.leaseDeadline);
    var seqDigits := CountDigits(d.sequence);
    var deliveryId := CountDigits(d.deliveryId);
    var headersDigits := CountDigits(headersLength);
    var totalDigits := CountDigits(totalLength);
    length := 9 + |Encode(d.consumer)| + 1 + |Encode(d.subject)| + 1 + |Encode(reply)| + 1 + |Encode(d.stream)| + 1
      + partition + 1 + offset + 1 + keyLength + 1 + timestamp + 1 + attempt + 1 + leaseDeadline + 1 + seqDigits + 1
      + deliveryId + 1 + headersDigits + 1 + totalDigits + 2 + totalLength + 2;
    DeliveryLineLength(d);
    EncodeConcat(DeliveryLine(d), CRLF);
    AsciiLength(CRLF);
  }

  // ----- acknowledgement subjects -----

  datatype AckSubject = AckSubject(consumer: string, sequence: U64, deliveryId: U64)

  function AckSubjectText(a: AckSubject): string {
    Join(["_MORROW", "ACK", a.consumer, Decimal(a.sequence), Decimal(a.deliveryId)], '/')
  }

  function ParseAckSubject(subject: string): Option<AckSubject> {
    var parts := Split(subject, '/');
    if |parts| < 3 || parts[0] != "_MORROW" || parts[1] != "ACK" || |parts| < 5 then None
    else
      var seqNumber, deliveryId := ParseNumber(parts[3], U64_MAX), ParseNumber(parts[4], U64_MAX);
      if seqNumber.None? || deliveryId.None? || |parts| > 5 then None
      else Some(AckSubject(parts[2], seqNumber.value, deliveryId.value))
  }

  /** Acknowledgement subjects are read back exactly when the consumer id has no slash. */
  lemma AckSubjectRoundTripsIff(a: AckSubject)
    ensures ParseAckSubject(AckSubjectText(a)) == Some(a) <==> '/' !in a.consumer
  {
    hide Split, Join, Decimal, ParseNumber;
    var parts := ["_MORROW", "ACK", a.consumer, Decimal(a.sequence), Decimal(a.deliveryId)];
    if '/' !in a.consumer {
      DecimalRoundTrip(a.sequence, U64_MAX);
      DecimalRoundTrip(a.deliveryId, U64_MAX);
      SplitJoin(parts, '/');
    }
    SplitPieces(AckSubjectText(a), '/');
  }
}
