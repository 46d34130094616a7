/** The client reads back exactly what the server printed, for exactly the frames whose
    parts survive being cut at whitespace, at CRLF and at the first colon. */
module FrameRoundTrip {
  import opened Common
  import opened Text
  import opened Utf8
  import opened Lexing
  import opened Numerals
  import opened Frames
  import opened FrameParser

  // ----- one line -----

  lemma {:induction false} LineEnds(line: Octets, rest: Octets)
    requires 10 !in line
    ensures LineLength(line + [10] + rest) == |line|
  {
    if line != [] {
      LineEnds(line[1..], rest);
      assert (line + [10] + rest)[1..] == line[1..] + [10] + rest;
    }
  }

  /** A line without a newline reaches the parser whole, and the bytes after it stay. */
  lemma LineReads(line: string, rest: Octets, max: nat)
    requires '\n' !in line
    ensures ReadFrame(Encode(line + CRLF) + rest, max) == ParseFrame(SplitWhitespace(line), rest, max)
  {
    hide Encode, Decode, SplitWhitespace, ParseFrame, LineLength;
    EncodeConcat(line, CRLF);
    AsciiLength(CRLF);
    var raw := Encode(line) + [13];
    if 10 in Encode(line) { AsciiOnly(line, 10); }
    var stream := Encode(line + CRLF) + rest;
    assert Encode(CRLF) == [13, 10];
    assert stream == raw + [10] + rest;
    LineEnds(raw, rest);
    assert stream[..|raw|] == raw && stream[|raw| + 1..] == rest;
    assert WithoutCarriageReturn(raw) == Encode(line);
    DecodeEncode(line);
  }

  lemma {:induction false} JoinedHasNoNewline(tokens: seq<string>)
    requires forall t :: t in tokens ==> CleanToken(t)
    ensures '\n' !in Join(tokens, ' ')
  {
    if tokens != [] {
      assert tokens[0] in tokens;
      JoinedHasNoNewline(tokens[1..]);
    }
  }

  lemma TokensRead(tokens: seq<string>, rest: Octets, max: nat)
    requires forall t :: t in tokens ==> CleanToken(t)
    ensures ReadFrame(Encode(Join(tokens, ' ') + CRLF) + rest, max) == ParseFrame(tokens, rest, max)
  {
    hide ReadFrame, ParseFrame, Encode, Join, CleanToken;
    JoinedHasNoNewline(tokens);
    TokensRoundTrip(tokens);
    LineReads(Join(tokens, ' '), rest, max);
  }

  lemma DecimalIsClean(n: nat)
    ensures CleanToken(Decimal(n)) && Decimal(n) != "-"
  {
  }

  /** Whatever frame is read, its tokens are clean. */
  lemma ReadTokens(stream: Octets, max: nat) returns (tokens: seq<string>, rest: Octets)
    requires ReadFrame(stream, max).Got?
    ensures ReadFrame(stream, max) == ParseFrame(tokens, rest, max) && forall t :: t in tokens ==> CleanToken(t)
  {
    hide ParseFrame, SplitWhitespace, Decode, CleanToken;
    var n := LineLength(stream);
    var line := Decode(WithoutCarriageReturn(stream[..n])).value;
    tokens, rest := SplitWhitespace(line), stream[n + 1..];
    TokensAreClean(line);
  }

  // ----- producer acknowledgements -----

  predicate CleanAck(a: AckReport) {
    CleanToken(a.msgId)
    && (a.position.Some? ==> CleanToken(a.position.value.stream) && !(CONTRACT <= a.position.value.stream))
  }

  /** The acknowledgement the client should see. */
  function Reported(a: AckReport): ProducerAck {
    var head := ProducerAck(a.msgId, a.level, a.retained, a.sequence, None, None, None, None, None, a.contract);
    match a.position
    case None => head
    case Some(p) =>
      head.(stream := Some(p.stream), partition := Some(p.partition), offset := Some(p.offset),
            partitioningEpoch := Some(p.partitioningEpoch), leaderEpoch := Some(p.leaderEpoch))
  }

  lemma AckTokensAreClean(a: AckReport)
    requires CleanAck(a)
    ensures forall t :: t in AckTokens(a) ==> CleanToken(t)
  {
    hide CleanToken, Decimal;
    WordsAreClean();
    if a.sequence.Some? { DecimalIsClean(a.sequence.value); }
    if a.position.Some? {
      DecimalIsClean(a.position.value.partition);
      DecimalIsClean(a.position.value.offset);
      DecimalIsClean(a.position.value.partitioningEpoch);
      DecimalIsClean(a.position.value.leaderEpoch);
    }
    if a.contract.Some? { ContractIsClean(a.contract.value); }
  }

  lemma WordsAreClean()
    ensures CleanToken("P-ACK") && CleanToken("OK") && CleanToken("true") && CleanToken("false")
    ensures CleanToken("DDELIVER")
    ensures CleanToken("0") && CleanToken("1") && CleanToken("2") && CleanToken("3") && CleanToken("-")
  {
  }

  lemma ContractIsClean(version: nat)
    ensures CleanToken(CONTRACT + Decimal(version))
  {
  }

  lemma AckTailParses(a: AckReport, parts: seq<string>, head: ProducerAck)
    requires CleanAck(a) && parts == AckTokens(a)[1..]
    requires head == ProducerAck(a.msgId, a.level, a.retained, a.sequence, None, None, None, None, None, None)
    ensures ParseAckTail(parts, head) == Ok(Reported(a))
  {
    hide Decimal, ParseNumber, CleanToken;
    if a.contract.Some? {
      DecimalRoundTrip(a.contract.value, 0xFFFF);
      assert (CONTRACT + Decimal(a.contract.value))[|CONTRACT|..] == Decimal(a.contract.value);
    }
    if a.position.Some? {
      var p := a.position.value;
      assert parts == AckHead(a)[1..] + PositionTokens(a.position) + ContractTokens(a.contract);
      DecimalRoundTrip(p.partition, U64_MAX);
      DecimalRoundTrip(p.offset, U64_MAX);
      DecimalRoundTrip(p.partitioningEpoch, U64_MAX);
      DecimalRoundTrip(p.leaderEpoch, U64_MAX);
    }
  }

  lemma AckParses(a: AckReport)
    requires CleanAck(a)
    ensures ParseProducerAck(AckTokens(a)[1..]) == Ok(Reported(a))
  {
    hide Decimal, ParseNumber, CleanToken, ParseAckTail;
    var parts := AckTokens(a)[1..];
    if a.sequence.Some? {
      DecimalRoundTrip(a.sequence.value, U64_MAX);
      DecimalIsClean(a.sequence.value);
    }
    AckTailParses(a, parts, ProducerAck(a.msgId, a.level, a.retained, a.sequence, None, None, None, None, None, None));
  }

  /** Printed acknowledgements are read back, with the rest of the stream untouched, exactly
      when the message id and the stream are single tokens and the stream cannot be taken
      for a contract. */
  lemma AckRoundTripsIff(a: AckReport, rest: Octets, max: nat)
    ensures ReadFrame(Encode(AckLine(a) + CRLF) + rest, max) == Got(AckFrame(Reported(a)), rest) <==> CleanAck(a)
  {
    var stream := Encode(AckLine(a) + CRLF) + rest;
    if CleanAck(a) {
      hide ReadFrame, Encode, Join, ParseProducerAck, CleanToken;
      AckTokensAreClean(a);
      TokensRead(AckTokens(a), rest, max);
      AckParses(a);
    }
    if ReadFrame(stream, max) == Got(AckFrame(Reported(a)), rest) {
      hide ReadFrame, Encode, Join, CleanToken, AckTokens;
      var tokens, left := ReadTokens(stream, max);
      ParsedAckIsClean(tokens[1..]);
    }
  }

  lemma ParsedAckIsClean(parts: seq<string>)
    requires ParseProducerAck(parts).Ok? && forall t :: t in parts ==> CleanToken(t)
    ensures var ack := ParseProducerAck(parts).value;
            CleanToken(ack.msgId)
              && (ack.stream.Some? ==> CleanToken(ack.stream.value) && !(CONTRACT <= ack.stream.value))
  {
    hide CleanToken, ParseNumber;
  }

  // ----- headers -----

  predicate CleanHeader(h: (string, string)) {
    Trimmed(h.0) && Trimmed(h.1) && ':' !in h.0 && NoCrlf(h.0) && NoCrlf(h.1)
  }

  lemma HeaderLineIsOneLine(name: string, value: string)
    requires NoCrlf(name) && NoCrlf(value)
    ensures NoCrlf(name + ": " + value)
  {
  }

  lemma OneHeaderParses(header: (string, string), lines: seq<string>)
    requires CleanHeader(header)
    ensures ParseHeaderLines([header.0 + ": " + header.1] + lines) == Prepend([header], ParseHeaderLines(lines))
  {
    hide SplitOnce, Trim, Trimmed, NoCrlf;
    var line := header.0 + ": " + header.1;
    SplitOnceFinds(header.0, ':', " " + header.1);
    assert line == header.0 + [':'] + (" " + header.1);
    TrimmedStays(header.0);
    TrimmedStays(header.1);
    assert ([line] + lines)[1..] == lines;
  }

  lemma {:induction false} HeaderLinesParse(headers: Headers)
    requires forall h :: h in headers ==> CleanHeader(h)
    ensures ParseHeaderLines(SplitCrlf(HeaderLines(headers) + CRLF)) == Ok(headers)
  {
    if headers == [] {
      SplitLine("", "");
      assert HeaderLines(headers) + CRLF == "" + CRLF + "";
    } else {
      var header, rest := headers[0], HeaderLines(headers[1..]) + CRLF;
      var line := header.0 + ": " + header.1;
      assert header in headers && headers == [header] + headers[1..];
      assert HeaderLines(headers) + CRLF == line + CRLF + rest;
      HeaderLineIsOneLine(header.0, header.1);
      hide SplitCrlf, ParseHeaderLines, NoCrlf, HeaderLines, Trimmed;
      SplitLine(line, rest);
      OneHeaderParses(header, SplitCrlf(rest));
      HeaderLinesParse(headers[1..]);
    }
  }

  lemma HeadersParse(headers: Headers)
    requires forall h :: h in headers ==> CleanHeader(h)
    ensures ParseHeaders(Encode(HeaderBlock(headers))) == Ok(headers)
  {
    hide SplitCrlf, ParseHeaderLines, Decode, Encode, CleanHeader, HeaderLines;
    var block, rest := HeaderBlock(headers), HeaderLines(headers) + CRLF;
    DecodeEncode(block);
    assert NoCrlf("MORROW/1.0");
    SplitLine("MORROW/1.0", rest);
    assert block == "MORROW/1.0" + CRLF + rest;
    HeaderLinesParse(headers);
    assert (["MORROW/1.0"] + SplitCrlf(rest))[1..] == SplitCrlf(rest);
  }

  lemma WithinKeepsLine(t: string, s: string)
    requires Within(t, s) && NoCrlf(s)
    ensures NoCrlf(t) && forall c :: c in t ==> c in s
  {
  }

  lemma CutHeaderIsClean(line: string)
    requires NoCrlf(line) && SplitOnce(line, ':').Some?
    ensures var (name, value) := SplitOnce(line, ':').value; CleanHeader((Trim(name), Trim(value)))
  {
    hide SplitOnce, Trim, Trimmed;
    var (name, value) := SplitOnce(line, ':').value;
    SplitOnceShape(line, ':');
    assert name == line[0..|name|] && value == line[|name| + 1..|line|];
    WithinKeepsLine(name, line);
    WithinKeepsLine(value, line);
    TrimShape(name);
    TrimShape(value);
    WithinKeepsLine(Trim(name), name);
    WithinKeepsLine(Trim(value), value);
  }

  lemma {:induction false} ParsedLinesAreClean(lines: seq<string>)
    requires ParseHeaderLines(lines).Ok? && forall t :: t in lines ==> NoCrlf(t)
    ensures forall h :: h in ParseHeaderLines(lines).value ==> CleanHeader(h)
  {
    hide SplitOnce, Trim, CleanHeader, NoCrlf;
    if lines != [] && lines[0] != "" {
      assert lines[0] in lines;
      CutHeaderIsClean(lines[0]);
      ParsedLinesAreClean(lines[1..]);
    }
  }

  lemma ParsedHeadersAreClean(bytes: Octets)
    requires ParseHeaders(bytes).Ok?
    ensures forall h :: h in ParseHeaders(bytes).value ==> CleanHeader(h)
  {
    hide ParseHeaderLines, SplitCrlf, NoCrlf, CleanHeader, Decode;
    var text := Decode(bytes).value;
    LinesHaveNoCrlf(text);
    ParsedLinesAreClean(SplitCrlf(text)[1..]);
  }

  // ----- durable deliveries -----

  predicate CleanDelivery(d: Delivery) {
    && CleanToken(d.consumer) && CleanToken(d.subject) && CleanToken(d.stream)
    && (d.reply.Some? ==> CleanToken(d.reply.value) && d.reply.value != "-")
    && d.key != Some([])
    && forall h :: h in d.headers ==> CleanHeader(h)
  }

  lemma KeyIsClean(key: Option<Octets>)
    requires key != Some([])
    ensures CleanToken(KeyText(key)) && ParseKey(KeyText(key)) == Ok(key)
  {
    if key.Some? {
      HexShape(key.value);
      HexRoundTrip(key.value);
      assert forall c :: c in Hex(key.value) ==> '0' <= c <= 'f';
      assert Hex(key.value)[0] in Hex(key.value);
      hide DecodeHex, Encode, Hex;
    }
  }

  lemma DeliveryTokensAreClean(d: Delivery)
    requires CleanDelivery(d)
    ensures forall t :: t in DeliveryTokens(d) ==> CleanToken(t)
  {
    hide CleanToken, Decimal, HeadersLength, TotalLength, KeyText, ParseKey, CleanHeader;
    WordsAreClean();
    KeyIsClean(d.key);
    DecimalIsClean(d.partition);
    DecimalIsClean(d.offset);
    DecimalIsClean(d.timestamp);
    DecimalIsClean(d.attempt);
    DecimalIsClean(d.leaseDeadline);
    DecimalIsClean(d.sequence);
    DecimalIsClean(d.deliveryId);
    DecimalIsClean(HeadersLength(d));
    DecimalIsClean(TotalLength(d));
  }

  lemma NumberReads(parts: seq<string>, i: nat, n: nat, max: nat)
    requires i < |parts| && parts[i] == Decimal(n) && n <= max
    ensures NumberPart(parts, i, max) == Ok(n)
  {
    DecimalRoundTrip(n, max);
  }

  lemma NumbersRead(d: Delivery, parts: seq<string>)
    requires parts == DeliveryTokens(d)[1..] && TotalLength(d) <= U64_MAX
    ensures NumberPart(parts, 4, U32_MAX) == Ok(d.partition) && NumberPart(parts, 5, U64_MAX) == Ok(d.offset)
    ensures NumberPart(parts, 7, U64_MAX) == Ok(d.timestamp) && NumberPart(parts, 8, U32_MAX) == Ok(d.attempt)
    ensures NumberPart(parts, 9, U64_MAX) == Ok(d.leaseDeadline) && NumberPart(parts, 10, U64_MAX) == Ok(d.sequence)
    ensures NumberPart(parts, 11, U64_MAX) == Ok(d.deliveryId)
    ensures NumberPart(parts, 12, U64_MAX) == Ok(HeadersLength(d))
    ensures NumberPart(parts, 13, U64_MAX) == Ok(TotalLength(d))
  {
    assert HeadersLength(d) <= TotalLength(d);
    hide NumberPart, Decimal, HeadersLength, TotalLength, KeyText, ReplyText;
    assert |parts| == 14 && forall i :: 0 <= i < 14 ==> parts[i] == DeliveryTokens(d)[i + 1];
    NumberReads(parts, 4, d.partition, U32_MAX);
    NumberReads(parts, 5, d.offset, U64_MAX);
    NumberReads(parts, 7, d.timestamp, U64_MAX);
    NumberReads(parts, 8, d.attempt, U32_MAX);
    NumberReads(parts, 9, d.leaseDeadline, U64_MAX);
    NumberReads(parts, 10, d.sequence, U64_MAX);
    NumberReads(parts, 11, d.deliveryId, U64_MAX);
    NumberReads(parts, 12, HeadersLength(d), U64_MAX);
    NumberReads(parts, 13, TotalLength(d), U64_MAX);
  }

  lemma DeliveryLineParses(d: Delivery)
    requires CleanDelivery(d) && TotalLength(d) <= U64_MAX
    ensures ParseDeliveryLine(DeliveryTokens(d)[1..])
      == Ok((d.(headers := [], payload := []), HeadersLength(d), TotalLength(d)))
  {
    hide CleanToken, Decimal, HeadersLength, TotalLength, KeyText, ParseKey, NumberPart, CleanHeader;
    var parts := DeliveryTokens(d)[1..];
    KeyIsClean(d.key);
    NumbersRead(d, parts);
    assert parts[..4] == [d.consumer, d.subject, ReplyText(d.reply), d.stream] && parts[6] == KeyText(d.key)
      && |parts| == 14;
    hide DeliveryTokens;
  }

  lemma LongLineFails(d: Delivery)
    requires TotalLength(d) > U64_MAX
    ensures ParseDeliveryLine(DeliveryTokens(d)[1..]).Err?
  {
    DecimalRoundTrip(TotalLength(d), U64_MAX);
    assert NumberPart(DeliveryTokens(d)[1..], 13, U64_MAX).Err?;
    hide Decimal, HeadersLength, TotalLength, KeyText, ParseKey, ParseNumber, NumberPart;
  }

  lemma BodyReads(d: Delivery, rest: Octets, max: nat)
    requires CleanDelivery(d)
    ensures ReadBody(Encode(HeaderBlock(d.headers)) + d.payload + [13, 10] + rest, HeadersLength(d), TotalLength(d),
                     max)
            == if TotalLength(d) <= max then Ok((d.headers, d.payload, rest)) else Err(OverPayloadLimit)
  {
    hide HeaderBlock, Encode, ParseHeaders, CleanToken, CleanHeader;
    var block := Encode(HeaderBlock(d.headers));
    var stream := block + d.payload + [13, 10] + rest;
    HeadersParse(d.headers);
    assert stream[..|block|] == block && stream[|block|..|block| + |d.payload|] == d.payload;
    assert stream[TotalLength(d)..TotalLength(d) + 2] == [13, 10] && stream[TotalLength(d) + 2..] == rest;
  }

  /** A clean delivery within the client's limit is read back; past the limit it is refused. */
  lemma CleanDeliveryReads(d: Delivery, rest: Octets, max: U64)
    requires CleanDelivery(d)
    ensures if TotalLength(d) <= max then ReadFrame(DeliveryFrame(d) + rest, max) == Got(DeliveryFrameRead(d), rest)
            else ReadFrame(DeliveryFrame(d) + rest, max).Bad?
  {
    hide CleanDelivery, ReadFrame, Encode, Join, HeaderBlock, HeadersLength, TotalLength, ParseDeliveryLine, ReadBody,
         CleanToken;
    var body := Encode(HeaderBlock(d.headers)) + d.payload + [13, 10];
    assert DeliveryFrame(d) + rest == Encode(DeliveryLine(d) + CRLF) + (body + rest);
    DeliveryTokensAreClean(d);
    TokensRead(DeliveryTokens(d), body + rest, max);
    assert DeliveryTokens(d)[0] == "DDELIVER";
    hide DeliveryTokens;
    if TotalLength(d) <= U64_MAX {
      DeliveryLineParses(d);
      BodyReads(d, rest, max);
    } else {
      LongLineFails(d);
    }
  }

  lemma ParsedKeyIsNotEmpty(token: string)
    requires CleanToken(token) && ParseKey(token).Ok?
    ensures ParseKey(token).value != Some([])
  {
  }

  lemma ParsedLineIsClean(parts: seq<string>)
    requires ParseDeliveryLine(parts).Ok? && forall t :: t in parts ==> CleanToken(t)
    ensures CleanDelivery(ParseDeliveryLine(parts).value.0)
  {
    hide CleanToken, ParseKey, ParseNumber, CleanHeader;
    assert parts[6] in parts;
    ParsedKeyIsNotEmpty(parts[6]);
  }

  lemma ReadDeliveryIsClean(parts: seq<string>, stream: Octets, max: nat)
    requires ParseDelivery(parts, stream, max).Ok? && forall t :: t in parts ==> CleanToken(t)
    ensures CleanDelivery(ParseDelivery(parts, stream, max).value.0)
  {
    hide CleanToken, ParseDeliveryLine, ParseHeaders, CleanHeader;
    ParsedLineIsClean(parts);
    var line := ParseDeliveryLine(parts).value;
    ParsedHeadersAreClean(stream[..line.1]);
  }

  /** Printed deliveries are read back, with the rest of the stream untouched, exactly when
      every part is clean and the body is within the client's limit. */
  lemma DeliveryRoundTripsIff(d: Delivery, rest: Octets, max: U64)
    ensures ReadFrame(DeliveryFrame(d) + rest, max) == Got(DeliveryFrameRead(d), rest)
            <==> CleanDelivery(d) && TotalLength(d) <= max
  {
    hide ReadFrame, DeliveryFrame, TotalLength, CleanDelivery, CleanToken, ParseDelivery, ParseProducerAck;
    var stream := DeliveryFrame(d) + rest;
    if ReadFrame(stream, max) == Got(DeliveryFrameRead(d), rest) {
      var tokens, left := ReadTokens(stream, max);
      ReadDeliveryIsClean(tokens[1..], left, max);
    }
    if CleanDelivery(d) { CleanDeliveryReads(d, rest, max); }
  }
}
