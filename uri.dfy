/** `encodeURIComponent`: percent-encoding of UTF-8 octets (section 2.1 of RFC 3986), with
    the characters ECMAScript leaves unescaped, and the decoding that inverts it. */
module Uri {

  /** The characters `encodeURIComponent` copies unchanged: letters, digits and `-_.!~*'()`. */
  predicate IsUnreserved(c: char)
  {
    ('A' <= c <= 'Z') || ('a' <= c <= 'z') || ('0' <= c <= '9') ||
    c == '-' || c == '_' || c == '.' || c == '!' || c == '~' || c == '*' || c == '\'' || c == '(' || c == ')'
  }

  /** Upper-case hexadecimal digit, as `encodeURIComponent` writes it. */
  function HexDigit(d: nat): (c: char)
    requires d < 16
    ensures IsUnreserved(c) && c != '%'
  {
    if d < 10 then ('0' as int + d) as char else ('A' as int + d - 10) as char
  }

  /** The value of a hexadecimal digit (either case); -1 for any other character. */
  function HexValue(c: char): int
  {
    if '0' <= c <= '9' then c as int - '0' as int
    else if 'A' <= c <= 'F' then c as int - 'A' as int + 10
    else if 'a' <= c <= 'f' then c as int - 'a' as int + 10
    else -1
  }

  lemma HexRoundTrip(d: nat)
    requires d < 16
    ensures HexValue(HexDigit(d)) == d
  {
  }

  predicate IsByte(b: int)
  {
    0 <= b < 256
  }

  /** The UTF-8 encoding of one Unicode scalar value. */
  function Utf8(c: char): (bytes: seq<int>)
    ensures 1 <= |bytes| <= 4
    ensures forall i :: 0 <= i < |bytes| ==> IsByte(bytes[i])
  {
    var n := c as int;
    if n < 0x80 then [n]
    else if n < 0x800 then [0xC0 + n / 64, 0x80 + n % 64]
    else if n < 0x10000 then [0xE0 + n / 4096, 0x80 + (n / 64) % 64, 0x80 + n % 64]
    else [0xF0 + n / 262144, 0x80 + (n / 4096) % 64, 0x80 + (n / 64) % 64, 0x80 + n % 64]
  }

  /** `%XY` for each octet, in order. */
  function PercentBytes(bytes: seq<int>): (r: string)
    requires forall i :: 0 <= i < |bytes| ==> IsByte(bytes[i])
    ensures |r| == 3 * |bytes|
  {
    if bytes == [] then ""
    else
      assert IsByte(bytes[0]);
      ['%', HexDigit(bytes[0] / 16), HexDigit(bytes[0] % 16)] + PercentBytes(bytes[1..])
  }

  /** The encoding of one character. */
  function EncodeChar(c: char): string
  {
    if IsUnreserved(c) then [c] else PercentBytes(Utf8(c))
  }

  /** `encodeURIComponent(s)`. */
  function Enc(s: string): (r: string)
    ensures forall i :: 0 <= i < |r| ==> IsUnreserved(r[i]) || r[i] == '%'
  {
    if s == [] then ""
    else
      PercentBytesAlphabet(Utf8(s[0]));
      EncodeChar(s[0]) + Enc(s[1..])
  }

  lemma {:induction false} PercentBytesAlphabet(bytes: seq<int>)
    requires forall i :: 0 <= i < |bytes| ==> IsByte(bytes[i])
    ensures forall i :: 0 <= i < |PercentBytes(bytes)| ==> IsUnreserved(PercentBytes(bytes)[i]) || PercentBytes(bytes)[i] == '%'
  {
    if bytes != [] {
      PercentBytesAlphabet(bytes[1..]);
    }
  }

  /** The characters that delimit URI components never occur in an encoded component. */
  lemma EncHasNoDelimiters(s: string)
    ensures '&' !in Enc(s) && '=' !in Enc(s) && '?' !in Enc(s) && '#' !in Enc(s)
    ensures '/' !in Enc(s) && ':' !in Enc(s) && ' ' !in Enc(s)
    ensures '-' in Enc(s) ==> '-' in s
  {
    NotInEnc(s, '&');
    NotInEnc(s, '=');
    NotInEnc(s, '?');
    NotInEnc(s, '#');
    NotInEnc(s, '/');
    NotInEnc(s, ':');
    NotInEnc(s, ' ');
    EncDashes(s);
  }

  /** A character that is neither unreserved nor `%` never occurs in an encoding. */
  lemma NotInEnc(s: string, c: char)
    requires !IsUnreserved(c) && c != '%'
    ensures c !in Enc(s)
  {
    var e := Enc(s);
    assert forall i :: 0 <= i < |e| ==> e[i] != c;
  }

  lemma {:induction false} EncDashes(s: string)
    ensures '-' in Enc(s) ==> '-' in s
  {
    if s != [] {
      EncDashes(s[1..]);
      PercentBytesNoDash(Utf8(s[0]));
    }
  }

  lemma {:induction false} PercentBytesNoDash(bytes: seq<int>)
    requires forall i :: 0 <= i < |bytes| ==> IsByte(bytes[i])
    ensures '-' !in PercentBytes(bytes)
  {
    if bytes != [] {
      PercentBytesNoDash(bytes[1..]);
    }
  }

  /** Encoding distributes over concatenation. */
  lemma {:induction false} EncAppend(a: string, b: string)
    ensures Enc(a + b) == Enc(a) + Enc(b)
  {
    if a == [] {
      assert a + b == b;
    } else {
      assert (a + b)[0] == a[0] && (a + b)[1..] == a[1..] + b;
      EncAppend(a[1..], b);
    }
  }

  // The model's decoder: the inverse of Enc on every string. Unlike `decodeURIComponent` it
  // never throws; input Enc cannot produce is copied or replaced by U+FFFD.

  /** The octet written as `%XY` at position `3 * i` of `t`. */
  function OctetAt(t: string, i: nat): int
    requires 3 * i + 3 <= |t|
  {
    HexValue(t[3 * i + 1]) * 16 + HexValue(t[3 * i + 2])
  }

  /** How many octets a UTF-8 sequence with lead octet `b` has. */
  function SequenceLength(b: int): nat
  {
    if b < 0xC0 then 1 else if b < 0xE0 then 2 else if b < 0xF0 then 3 else 4
  }

  /** The code point of the `n`-octet sequence at the start of `t`. */
  function CodePoint(t: string, n: nat): int
    requires 1 <= n <= 4 && 3 * n <= |t|
  {
    var b0 := OctetAt(t, 0);
    if n == 1 then b0
    else if n == 2 then (b0 - 0xC0) * 64 + (OctetAt(t, 1) - 0x80)
    else if n == 3 then (b0 - 0xE0) * 4096 + (OctetAt(t, 1) - 0x80) * 64 + (OctetAt(t, 2) - 0x80)
    else (b0 - 0xF0) * 262144 + (OctetAt(t, 1) - 0x80) * 4096 + (OctetAt(t, 2) - 0x80) * 64 + (OctetAt(t, 3) - 0x80)
  }

  predicate IsScalarValue(n: int)
  {
    (0 <= n < 0xD800) || (0xE000 <= n < 0x110000)
  }

  /** Percent-decoding followed by UTF-8 decoding; malformed input is copied or replaced by U+FFFD. */
  function Dec(t: string): string
    decreases |t|
  {
    if t == [] then ""
    else if t[0] == '%' && 3 <= |t| && 3 * SequenceLength(OctetAt(t, 0)) <= |t| then
      var n := SequenceLength(OctetAt(t, 0));
      var cp := CodePoint(t, n);
      [if IsScalarValue(cp) then cp as char else 0xFFFD as char] + Dec(t[3 * n..])
    else [t[0]] + Dec(t[1..])
  }

  lemma PercentBytesAt(bytes: seq<int>, rest: string, i: nat)
    requires forall j :: 0 <= j < |bytes| ==> IsByte(bytes[j])
    requires i < |bytes|
    ensures 3 * i + 3 <= |PercentBytes(bytes) + rest|
    ensures (PercentBytes(bytes) + rest)[3 * i] == '%'
    ensures OctetAt(PercentBytes(bytes) + rest, i) == bytes[i]
  {
    var t := PercentBytes(bytes) + rest;
    if i == 0 {
      HexRoundTrip(bytes[0] / 16);
      HexRoundTrip(bytes[0] % 16);
    } else {
      PercentBytesAt(bytes[1..], rest, i - 1);
      assert t[3..] == PercentBytes(bytes[1..]) + rest;
      assert t[3 * i + 1] == t[3..][3 * (i - 1) + 1];
      assert t[3 * i + 2] == t[3..][3 * (i - 1) + 2];
    }
  }

  lemma DecodeUtf8Char(c: char, rest: string)
    requires !IsUnreserved(c)
    ensures Dec(PercentBytes(Utf8(c)) + rest) == [c] + Dec(rest)
  {
    var bytes := Utf8(c);
    var t := PercentBytes(bytes) + rest;
    var n := |bytes|;
    forall i | 0 <= i < n ensures OctetAt(t, i) == bytes[i] {
      PercentBytesAt(bytes, rest, i);
    }
    PercentBytesAt(bytes, rest, 0);
    assert t[3 * n..] == rest;
    var v := c as int;
    if v < 0x80 {
      assert SequenceLength(OctetAt(t, 0)) == 1;
    } else if v < 0x800 {
      assert SequenceLength(OctetAt(t, 0)) == 2;
      assert CodePoint(t, 2) == v;
    } else if v < 0x10000 {
      assert SequenceLength(OctetAt(t, 0)) == 3;
      Split3(v);
      assert CodePoint(t, 3) == v;
    } else {
      assert v / 262144 <= 4;
      assert SequenceLength(OctetAt(t, 0)) == 4;
      Split4(v);
      assert CodePoint(t, 4) == v;
    }
  }

  lemma Split3(v: nat)
    ensures v == (v / 4096) * 4096 + ((v / 64) % 64) * 64 + v % 64
  {
    assert v / 64 == (v / 4096) * 64 + (v / 64) % 64;
  }

  lemma Split4(v: nat)
    ensures v == (v / 262144) * 262144 + ((v / 4096) % 64) * 4096 + ((v / 64) % 64) * 64 + v % 64
  {
    assert v / 4096 == (v / 262144) * 64 + (v / 4096) % 64;
    Split3(v);
  }

  lemma DecodeEncodedChar(c: char, rest: string)
    ensures Dec(EncodeChar(c) + rest) == [c] + Dec(rest)
  {
    if IsUnreserved(c) {
      assert ([c] + rest)[1..] == rest;
    } else {
      DecodeUtf8Char(c, rest);
    }
  }

  /** Decoding inverts encoding, so `encodeURIComponent` loses nothing (and is injective). */
  lemma {:induction false} DecEnc(s: string)
    ensures Dec(Enc(s)) == s
  {
    if s != [] {
      DecEnc(s[1..]);
      DecodeEncodedChar(s[0], Enc(s[1..]));
    }
  }

  lemma EncInjective(a: string, b: string)
    ensures Enc(a) == Enc(b) <==> a == b
  {
    DecEnc(a);
    DecEnc(b);
  }
}
