/** UTF-8: the bytes of a Rust string, and `from_utf8` as its exact inverse. */
module Utf8 {
  import opened Common

  type Octet = n: nat | n < 256

  type Octets = seq<Octet>

  // Six bits at a time.
  function High(n: nat): nat { n / 0x40 }

  function Low(n: nat): nat { n % 0x40 }

  function Push(high: nat, low: nat): nat { high * 0x40 + low }

  lemma SplitsInto(n: nat)
    ensures Push(High(n), Low(n)) == n && Low(n) < 0x40 && High(n) * 0x40 <= n < High(n) * 0x40 + 0x40
  {
  }

  lemma PushSplits(high: nat, low: nat)
    requires low < 0x40
    ensures High(Push(high, low)) == high && Low(Push(high, low)) == low && Push(high, low) == high * 0x40 + low
  {
  }

  function EncodeChar(c: char): (r: Octets)
    ensures 1 <= |r| <= 4
    ensures |r| > 1 ==> forall b :: b in r ==> b >= 0x80
  {
    var n := c as int;
    if n < 0x80 then [n]
    else if n < 0x800 then [0xC0 + High(n), 0x80 + Low(n)]
    else if n < 0x10000 then [0xE0 + High(High(n)), 0x80 + Low(High(n)), 0x80 + Low(n)]
    else [0xF0 + High(High(High(n))), 0x80 + Low(High(High(n))), 0x80 + Low(High(n)), 0x80 + Low(n)]
  }

  function Encode(s: string): Octets {
    if s == "" then [] else EncodeChar(s[0]) + Encode(s[1..])
  }

  predicate Continues(b: Octet) { 0x80 <= b < 0xC0 }

  predicate IsScalar(n: int) { 0 <= n < 0xD800 || 0xE000 <= n < 0x11_0000 }

  /** The first character and the number of bytes it takes: no overlong form, no surrogate,
      nothing past the last code point. */
  function DecodeChar(b: Octets): Option<(char, nat)> {
    if b == [] then None
    else if b[0] < 0x80 then Some((b[0] as char, 1))
    else if 0xC0 <= b[0] < 0xE0 && |b| >= 2 && Continues(b[1]) then
      Scalar(Push(b[0] - 0xC0, b[1] - 0x80), 0x80, 2)
    else if 0xE0 <= b[0] < 0xF0 && |b| >= 3 && Continues(b[1]) && Continues(b[2]) then
      Scalar(Push(Push(b[0] - 0xE0, b[1] - 0x80), b[2] - 0x80), 0x800, 3)
    else if 0xF0 <= b[0] && |b| >= 4 && Continues(b[1]) && Continues(b[2]) && Continues(b[3]) then
      Scalar(Push(Push(Push(b[0] - 0xF0, b[1] - 0x80), b[2] - 0x80), b[3] - 0x80), 0x10000, 4)
    else None
  }

  function Scalar(n: nat, least: nat, width: nat): Option<(char, nat)> {
    if n >= least && IsScalar(n) then Some((n as char, width)) else None
  }

  lemma CharSound(b: Octets)
    requires DecodeChar(b).Some?
    ensures 1 <= DecodeChar(b).value.1 <= |b| && EncodeChar(DecodeChar(b).value.0) == b[..DecodeChar(b).value.1]
  {
    hide High, Low, Push;
    if 0xC0 <= b[0] < 0xE0 {
      PushSplits(b[0] - 0xC0, b[1] - 0x80);
    } else if 0xE0 <= b[0] < 0xF0 {
      PushSplits(b[0] - 0xE0, b[1] - 0x80);
      PushSplits(Push(b[0] - 0xE0, b[1] - 0x80), b[2] - 0x80);
    } else if 0xF0 <= b[0] {
      PushSplits(b[0] - 0xF0, b[1] - 0x80);
      PushSplits(Push(b[0] - 0xF0, b[1] - 0x80), b[2] - 0x80);
      PushSplits(Push(Push(b[0] - 0xF0, b[1] - 0x80), b[2] - 0x80), b[3] - 0x80);
    }
  }

  function Decode(b: Octets): Option<string> {
    if b == [] then Some("")
    else
      match DecodeChar(b)
      case None => None
      case Some((c, n)) =>
        CharSound(b);
        match Decode(b[n..])
        case None => None
        case Some(rest) => Some([c] + rest)
  }

  lemma CharRoundTrip(c: char, rest: Octets)
    ensures DecodeChar(EncodeChar(c) + rest) == Some((c, |EncodeChar(c)|))
  {
    hide High, Low, Push;
    var n := c as int;
    SplitsInto(n);
    SplitsInto(High(n));
    SplitsInto(High(High(n)));
  }

  lemma {:induction false} DecodeEncode(s: string)
    ensures Decode(Encode(s)) == Some(s)
  {
    hide EncodeChar, DecodeChar;
    if s != "" {
      CharRoundTrip(s[0], Encode(s[1..]));
      DecodeEncode(s[1..]);
      assert Encode(s)[|EncodeChar(s[0])|..] == Encode(s[1..]);
      assert s == [s[0]] + s[1..];
    }
  }

  lemma {:induction false} EncodeDecode(b: Octets)
    requires Decode(b).Some?
    ensures Encode(Decode(b).value) == b
  {
    hide EncodeChar, DecodeChar;
    if b != [] {
      var (c, n) := DecodeChar(b).value;
      CharSound(b);
      EncodeDecode(b[n..]);
      assert b == b[..n] + b[n..];
    }
  }

  /** Decoding accepts exactly the encodings, and gives back the encoded text. */
  lemma DecodesExactly(b: Octets, s: string)
    ensures Decode(b) == Some(s) <==> Encode(s) == b
  {
    DecodeEncode(s);
    if Decode(b).Some? { EncodeDecode(b); }
  }

  lemma {:induction false} EncodeConcat(s: string, t: string)
    ensures Encode(s + t) == Encode(s) + Encode(t)
  {
    hide EncodeChar;
    if s == "" {
      assert s + t == t;
    } else {
      EncodeConcat(s[1..], t);
      assert (s + t)[1..] == s[1..] + t;
    }
  }

  lemma {:induction false} AsciiOnly(s: string, b: Octet)
    requires b < 0x80 && b in Encode(s)
    ensures b as char in s
  {
    if b in EncodeChar(s[0]) {
      assert EncodeChar(s[0]) == [b];
    } else {
      AsciiOnly(s[1..], b);
    }
  }

  predicate Ascii(s: string) { forall c :: c in s ==> c as int < 0x80 }

  /** ASCII text takes one byte a character. */
  lemma {:induction false} AsciiLength(s: string)
    requires Ascii(s)
    ensures |Encode(s)| == |s| && forall i :: 0 <= i < |s| ==> Encode(s)[i] == s[i] as int
  {
    if s != "" {
      assert forall c :: c in s[1..] ==> c in s;
      assert s[0] in s;
      AsciiLength(s[1..]);
    }
  }
}
