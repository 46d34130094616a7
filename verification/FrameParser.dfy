/** Client-side frame reading (crates/client/src/client/frame_parser.rs), written apart from
    the server's printer. */
module FrameParser {
  import opened Common
  import opened Utf8
  import opened Lexing
  import opened Numerals
  import opened Frames

  datatype Error =
    | MissingNewline
    | NotUtf8
    | EmptyFrame
    | OtherFrame
    | MissingField
    | BadField
    | IncompletePosition
    | TooManyArguments
    | HeadersExceedTotal
    | OverPayloadLimit
    | ConnectionClosed
    | MissingCrlf
    | MissingHeaderVersion
    | MalformedHeader

  datatype ProducerAck = ProducerAck(
    msgId: string, level: AckLevel, retained: bool, sequence: Option<nat>, stream: Option<string>,
    partition: Option<nat>,
    offset: Option<nat>, partitioningEpoch: Option<nat>, leaderEpoch: Option<nat>, contract: Option<nat>)

  datatype Frame = AckFrame(ack: ProducerAck) | DeliveryFrameRead(delivery: Delivery)

  /** What reading one frame gives: the end of the stream, a frame and the bytes left
      behind it, or an error. */
  datatype Reading = Closed | Got(frame: Frame, rest: Octets) | Bad(error: Error)

  function Part(parts: seq<string>, i: nat): Result<string, Error> {
    if i < |parts| then Ok(parts[i]) else Err(MissingField)
  }

  function Number(token: string, max: nat): (r: Result<nat, Error>)
    ensures r.Ok? ==> r.value <= max
  {
    var n := ParseNumber(token, max);
    if n.Some? then Ok(n.value) else Err(BadField)
  }

  function NumberPart(parts: seq<string>, i: nat, max: nat): (r: Result<nat, Error>)
    ensures r.Ok? ==> r.value <= max
  {
    var token :- Part(parts, i);
    Number(token, max)
  }

  // ----- producer acknowledgements -----

  function ParseLevel(token: string): Result<AckLevel, Error> {
    if token == "0" then Ok(Accepted)
    else if token == "1" then Ok(Durable)
    else if token == "2" then Ok(HighDurability)
    else if token == "3" then Ok(ClusterDurable)
    else Err(BadField)
  }

  function ParseFlag(token: string): Result<bool, Error> {
    if token == "true" then Ok(true) else if token == "false" then Ok(false) else Err(BadField)
  }

  function ParseSequence(token: string): Result<Option<nat>, Error> {
    if token == "-" then Ok(None)
    else
      var n :- Number(token, U64_MAX);
      Ok(Some(n))
  }

  function OptionalNumber(parts: seq<string>, i: nat, max: nat): Result<Option<nat>, Error> {
    if i < |parts| then
      var n :- Number(parts[i], max);
      Ok(Some(n))
    else Ok(None)
  }

  function ParseContract(token: Option<string>): Result<Option<nat>, Error> {
    if token.None? then Ok(None)
    else if !(CONTRACT <= token.value) then Err(BadField)
    else
      var version :- Number(token.value[|CONTRACT|..], 0xFFFF);
      Ok(Some(version))
  }

  /** The optional tail: a stream with its four numbers, then a contract; or a contract in
      the place of the stream. */
  function ParseAckTail(parts: seq<string>, head: ProducerAck): Result<ProducerAck, Error> {
    var early := |parts| > 5 && CONTRACT <= parts[5];
    var stream := if |parts| > 5 && !early then Some(parts[5]) else None;
    var partition :- OptionalNumber(parts, 6, U64_MAX);
    var offset :- OptionalNumber(parts, 7, U64_MAX);
    var partitioningEpoch :- OptionalNumber(parts, 8, U64_MAX);
    var leaderEpoch :- OptionalNumber(parts, 9, U64_MAX);
    var contract :- ParseContract(if early then Some(parts[5]) else if |parts| > 10 then Some(parts[10]) else None);
    if stream.Some? && leaderEpoch.None? then Err(IncompletePosition)
    else if |parts| > (if early then 10 else 11) then Err(TooManyArguments)
    else if partition.Some? && partition.value > U32_MAX then Err(BadField)
    else
      Ok(head.(stream := stream, partition := partition, offset := offset, partitioningEpoch := partitioningEpoch,
               leaderEpoch := leaderEpoch, contract := contract))
  }

  function ParseProducerAck(parts: seq<string>): Result<ProducerAck, Error> {
    var msgId :- Part(parts, 0);
    var levelToken :- Part(parts, 1);
    var level :- ParseLevel(levelToken);
    var status :- Part(parts, 2);
    if status != "OK" then Err(BadField)
    else
      var flagToken :- Part(parts, 3);
      var retained :- ParseFlag(flagToken);
      var sequenceToken :- Part(parts, 4);
      var sequence :- ParseSequence(sequenceToken);
      ParseAckTail(parts, ProducerAck(msgId, level, retained, sequence, None, None, None, None, None, None))
  }

  // ----- durable deliveries -----

  function ParseKey(token: string): Result<Option<Octets>, Error> {
    if token == "-" then Ok(None)
    else
      var key := DecodeHex(Encode(token));
      if key.Some? then Ok(Some(key.value)) else Err(BadField)
  }

  /** The fields of the protocol line, and the two lengths that announce the body. */
  function ParseDeliveryLine(parts: seq<string>): (r: Result<(Delivery, nat, nat), Error>) {
    var consumer :- Part(parts, 0);
    var subject :- Part(parts, 1);
    var reply :- Part(parts, 2);
    var stream :- Part(parts, 3);
    var partition :- NumberPart(parts, 4, U32_MAX);
    var offset :- NumberPart(parts, 5, U64_MAX);
    var keyToken :- Part(parts, 6);
    var key :- ParseKey(keyToken);
    var timestamp :- NumberPart(parts, 7, U64_MAX);
    var attempt :- NumberPart(parts, 8, U32_MAX);
    var leaseDeadline :- NumberPart(parts, 9, U64_MAX);
    var sequence :- NumberPart(parts, 10, U64_MAX);
    var deliveryId :- NumberPart(parts, 11, U64_MAX);
    var headersLength :- NumberPart(parts, 12, U64_MAX);
    var totalLength :- NumberPart(parts, 13, U64_MAX);
    if |parts| > 14 then Err(TooManyArguments)
    else
      Ok((Delivery(consumer, subject, if reply == "-" then None else Some(reply), [], stream, partition, offset, key,
                   timestamp, attempt, leaseDeadline, sequence, deliveryId, []),
          headersLength, totalLength))
  }

  function ParseHeaderLines(lines: seq<string>): Result<Headers, Error> {
    if lines == [] || lines[0] == "" then Ok([])
    else
      match SplitOnce(lines[0], ':')
      case None => Err(MalformedHeader)
      case Some((name, value)) =>
        Prepend([(Trim(name), Trim(value))], ParseHeaderLines(lines[1..]))
  }

  function ParseHeaders(bytes: Octets): Result<Headers, Error> {
    match Decode(bytes)
    case None => Err(NotUtf8)
    case Some(text) =>
      var lines := SplitCrlf(text);
      if lines[0] != "MORROW/1.0" then Err(MissingHeaderVersion) else ParseHeaderLines(lines[1..])
  }

  /** The header loop: up to the first empty line, each line pushes one pair. */
  method ReadHeaderLines(lines: seq<string>) returns (r: Result<Headers, Error>)
    ensures r == ParseHeaderLines(lines)
  {
    hide SplitOnce, Trim;
    var headers: Headers := [];
    assert lines[0..] == lines;
    PrependMore([], ("", ""), ParseHeaderLines(lines));
    for i := 0 to |lines|
      invariant ParseHeaderLines(lines) == Prepend(headers, ParseHeaderLines(lines[i..]))
    {
      if lines[i] == "" {
        assert headers + [] == headers;
        return Ok(headers);
      }
      var cut := SplitOnce(lines[i], ':');
      if cut.None? { return Err(MalformedHeader); }
      assert lines[i..][1..] == lines[i + 1..];
      var header := (Trim(cut.value.0), Trim(cut.value.1));
      PrependMore(headers, header, ParseHeaderLines(lines[i + 1..]));
      headers := headers + [header];
    }
    assert lines[|lines|..] == [] && headers + [] == headers;
    r := Ok(headers);
  }

  function Prepend(headers: Headers, r: Result<Headers, Error>): Result<Headers, Error> {
    match r
    case Ok(rest) => Ok(headers + rest)
    case Err(error) => Err(error)
  }

  lemma PrependMore(headers: Headers, header: (string, string), r: Result<Headers, Error>)
    ensures Prepend(headers, Prepend([header], r)) == Prepend(headers + [header], r)
    ensures Prepend([], r) == r
  {
    if r.Ok? {
      assert headers + ([header] + r.value) == headers + [header] + r.value;
      assert [] + r.value == r.value;
    }
  }

  function ReadBody(
    stream: Octets, headersLength: nat, totalLength: nat, max: nat
  ): Result<(Headers, Octets, Octets), Error> {
    if headersLength > totalLength then Err(HeadersExceedTotal)
    else if totalLength > max then Err(OverPayloadLimit)
    else if |stream| < totalLength + 2 then Err(ConnectionClosed)
    else if stream[totalLength..totalLength + 2] != [13, 10] then Err(MissingCrlf)
    else
      var headers :- ParseHeaders(stream[..headersLength]);
      Ok((headers, stream[headersLength..totalLength], stream[totalLength + 2..]))
  }

  function ParseDelivery(parts: seq<string>, stream: Octets, max: nat): Result<(Delivery, Octets), Error> {
    var line :- ParseDeliveryLine(parts);
    var body :- ReadBody(stream, line.1, line.2, max);
    Ok((line.0.(headers := body.0, payload := body.1), body.2))
  }

  // ----- reading the stream -----

  function LineLength(stream: Octets): (n: nat)
    ensures n <= |stream| && 10 !in stream[..n] && (n < |stream| ==> stream[n] == 10)
  {
    if stream == [] || stream[0] == 10 then 0
    else
      var n := 1 + LineLength(stream[1..]);
      assert stream[..n] == [stream[0]] + stream[1..][..n - 1];
      n
  }

  function WithoutCarriageReturn(line: Octets): Octets {
    if line != [] && line[|line| - 1] == 13 then line[..|line| - 1] else line
  }

  /** `read_frame`: one line up to the newline, its tokens, and for a delivery its body. */
  function ReadFrame(stream: Octets, max: nat): Reading {
    var n := LineLength(stream);
    if stream == [] then Closed
    else if n == |stream| then Bad(MissingNewline)
    else
      match Decode(WithoutCarriageReturn(stream[..n]))
      case None => Bad(NotUtf8)
      case Some(line) => ParseFrame(SplitWhitespace(line), stream[n + 1..], max)
  }

  function ParseFrame(tokens: seq<string>, rest: Octets, max: nat): Reading {
    if tokens == [] then Bad(EmptyFrame)
    else if tokens[0] == "P-ACK" then
      match ParseProducerAck(tokens[1..])
      case Ok(ack) => Got(AckFrame(ack), rest)
      case Err(error) => Bad(error)
    else if tokens[0] == "DDELIVER" then
      match ParseDelivery(tokens[1..], rest, max)
      case Ok((delivery, left)) => Got(DeliveryFrameRead(delivery), left)
      case Err(error) => Bad(error)
    else Bad(OtherFrame)
  }
}
