/** Decimal and hexadecimal text as the broker prints it (crates/protocol/src/frames.rs)
    and as Rust's number parsers read it back. */
module Numerals {
  import opened Common
  import opened Utf8

  predicate IsDigit(c: char) { '0' <= c <= '9' }

  function DigitChar(d: nat): (c: char)
    requires d < 10
    ensures IsDigit(c) && c as int == '0' as int + d
  {
    ('0' as int + d) as char
  }

  function Decimal(n: nat): (r: string)
    ensures r != "" && forall c :: c in r ==> IsDigit(c)
  {
    if n < 10 then [DigitChar(n)] else Decimal(n / 10) + [DigitChar(n % 10)]
  }

  function DigitsValue(s: string): nat
    requires forall c :: c in s ==> IsDigit(c)
  {
    if s == "" then 0
    else
      var init := s[..|s| - 1];
      assert s == init + [s[|s| - 1]] && s[|s| - 1] in s;
      assert IsDigit(s[|s| - 1]);
      DigitsValue(init) * 10 + (s[|s| - 1] as int - '0' as int)
  }

  /** `str::parse` for an unsigned type with the given largest value: an optional plus sign,
      at least one digit, leading zeros allowed, no overflow. */
  function ParseNumber(s: string, max: nat): (r: Option<nat>)
    ensures r.Some? ==> r.value <= max
  {
    var body := if |s| > 1 && s[0] == '+' then s[1..] else s;
    if body != "" && (forall c :: c in body ==> IsDigit(c)) && DigitsValue(body) <= max then Some(DigitsValue(body))
    else None
  }

  lemma {:induction false} DecimalValue(n: nat)
    ensures DigitsValue(Decimal(n)) == n
  {
    if n >= 10 {
      DecimalValue(n / 10);
      assert Decimal(n)[..|Decimal(n)| - 1] == Decimal(n / 10);
    }
  }

  /** Printed numbers are read back exactly when they fit. */
  lemma DecimalRoundTrip(n: nat, max: nat)
    ensures ParseNumber(Decimal(n), max) == if n <= max then Some(n) else None
  {
    DecimalValue(n);
    assert Decimal(n)[0] in Decimal(n);
  }

  /** `digits`: how many characters a number takes, without printing it. */
  method CountDigits(value: nat) returns (count: nat)
    ensures count == |Decimal(value)|
  {
    var rest := value;
    count := 1;
    while rest >= 10
      invariant count >= 1 && |Decimal(value)| == count - 1 + |Decimal(rest)|
    {
      rest := rest / 10;
      count := count + 1;
    }
  }

  // ----- hexadecimal -----

  const HEX_DIGITS := "0123456789abcdef"

  /** One hexadecimal digit, either case. */
  function HexValue(b: Octet): (r: Option<nat>)
    ensures r.Some? ==> r.value < 16
  {
    if '0' as int <= b <= '9' as int then Some(b - '0' as int)
    else if 'a' as int <= b <= 'f' as int then Some(b - 'a' as int + 10)
    else if 'A' as int <= b <= 'F' as int then Some(b - 'A' as int + 10)
    else None
  }

  function HexDigit(d: nat): (c: char)
    requires d < 16
    ensures '0' <= c <= 'f' && HexValue(c as int) == Some(d)
  {
    HEX_DIGITS[d]
  }

  function Hex(bytes: Octets): string {
    if bytes == [] then "" else [HexDigit(bytes[0] / 16), HexDigit(bytes[0] % 16)] + Hex(bytes[1..])
  }

  /** `hex`: two lower-case digits a byte, appended in turn. */
  method PrintHex(bytes: Octets) returns (value: string)
    ensures value == Hex(bytes)
  {
    value := "";
    for i := 0 to |bytes|
      invariant value + Hex(bytes[i..]) == Hex(bytes)
    {
      assert bytes[i..][1..] == bytes[i + 1..];
      value := value + [HexDigit(bytes[i] / 16)];
      value := value + [HexDigit(bytes[i] % 16)];
    }
    assert bytes[|bytes|..] == [];
  }

  /** `u8::from_str_radix(_, 16)` on two bytes: a plus sign may stand for the first digit. */
  function PairValue(a: Octet, b: Octet): (r: Option<nat>)
    ensures r.Some? ==> r.value < 256
  {
    match (if a == '+' as int then Some(0) else HexValue(a), HexValue(b))
    case (Some(high), Some(low)) => Some(high * 16 + low)
    case _ => None
  }

  /** `decode_hex`: pairs of digits; a text of odd length ends in a single byte and fails. */
  function DecodeHex(text: Octets): Option<Octets> {
    if text == [] then Some([])
    else if |text| == 1 then None
    else
      var byte, rest := PairValue(text[0], text[1]), DecodeHex(text[2..]);
      if byte.Some? && rest.Some? then Some([byte.value] + rest.value) else None
  }

  lemma {:induction false} HexShape(bytes: Octets)
    ensures |Hex(bytes)| == 2 * |bytes| && forall c :: c in Hex(bytes) ==> '0' <= c <= 'f'
  {
    if bytes != [] { HexShape(bytes[1..]); }
  }

  lemma {:induction false} HexRoundTrip(bytes: Octets)
    ensures DecodeHex(Encode(Hex(bytes))) == Some(bytes)
  {
    if bytes != [] {
      hide HexValue, HexDigit, Encode, PairValue;
      var rest := Hex(bytes[1..]);
      var a, b := HexDigit(bytes[0] / 16), HexDigit(bytes[0] % 16);
      HexRoundTrip(bytes[1..]);
      PairRoundTrip(bytes[0]);
      EncodeConcat([a, b], rest);
      assert Encode([a, b]) == [a as int, b as int] by { AsciiLength([a, b]); }
      PairDecodes(a as int, b as int, Encode(rest));
      assert Hex(bytes) == [a, b] + rest;
      assert bytes == [bytes[0]] + bytes[1..];
    }
  }

  lemma PairDecodes(a: Octet, b: Octet, rest: Octets)
    requires PairValue(a, b).Some? && DecodeHex(rest).Some?
    ensures DecodeHex([a, b] + rest) == Some([PairValue(a, b).value] + DecodeHex(rest).value)
  {
  }

  lemma PairRoundTrip(b: Octet)
    ensures PairValue(HexDigit(b / 16) as int, HexDigit(b % 16) as int) == Some(b)
  {
  }
}
