/** Python's `str.encode()` with its default codec, UTF-8 (RFC 3629), and the
    strict decoder that inverts it. */
module Utf8 {
  import opened Wrappers
  import opened Messages

  /** The number of bytes of the sequence a lead byte starts, or 0 for a byte
      that cannot start one. */
  function LeadLength(b: byte): nat
  {
    if b < 0x80 then 1
    else if 0xC2 <= b < 0xE0 then 2
    else if 0xE0 <= b < 0xF0 then 3
    else if 0xF0 <= b < 0xF5 then 4
    else 0
  }

  predicate IsContinuation(b: byte)
  {
    0x80 <= b < 0xC0
  }

  /** The bytes encoding one scalar value: the lead byte carries the high
      bits, each continuation byte six more bits, lowest last. */
  function EncodeChar(c: char): (r: seq<byte>)
    ensures 1 <= |r| <= 4 && LeadLength(r[0]) == |r|
    ensures forall i :: 1 <= i < |r| ==> IsContinuation(r[i])
    ensures |r| == 1 <==> c as int < 0x80
  {
    var n := c as int;
    var q1 := n / 64;
    var q2 := q1 / 64;
    if n < 0x80 then [n as byte]
    else if n < 0x800 then
      [(0xC0 + q1) as byte, (0x80 + n % 64) as byte]
    else if n < 0x10000 then
      [(0xE0 + q2) as byte, (0x80 + q1 % 64) as byte, (0x80 + n % 64) as byte]
    else
      [(0xF0 + q2 / 64) as byte, (0x80 + q2 % 64) as byte,
       (0x80 + q1 % 64) as byte, (0x80 + n % 64) as byte]
  }

  /** `s.encode()`. */
  function Encode(s: string): (r: seq<byte>)
    ensures |s| <= |r| <= 4 * |s|
  {
    if s == [] then [] else EncodeChar(s[0]) + Encode(s[1..])
  }

  /** The value of the scalar whose `n` bytes are `bs[..n]`, before any
      validity check. */
  function RawValue(bs: seq<byte>, n: nat): int
    requires 1 <= n <= 4 && n <= |bs|
  {
    var b0 := bs[0] as int;
    if n == 1 then b0
    else if n == 2 then (b0 - 0xC0) * 64 + (bs[1] as int - 0x80)
    else if n == 3 then ((b0 - 0xE0) * 64 + (bs[1] as int - 0x80)) * 64 + (bs[2] as int - 0x80)
    else (((b0 - 0xF0) * 64 + (bs[1] as int - 0x80)) * 64 + (bs[2] as int - 0x80)) * 64 + (bs[3] as int - 0x80)
  }

  /** The smallest value an `n`-byte sequence may carry (shorter forms are
      overlong and rejected). */
  function MinValue(n: nat): int
  {
    if n == 1 then 0 else if n == 2 then 0x80 else if n == 3 then 0x800 else 0x10000
  }

  /** The scalar the first `LeadLength(bs[0])` bytes encode, when they are a
      well-formed sequence. */
  function DecodeChar(bs: seq<byte>): Option<char>
    requires |bs| > 0
  {
    var n := LeadLength(bs[0]);
    if n == 0 || n > |bs| then None
    else if exists i :: 1 <= i < n && !IsContinuation(bs[i]) then None
    else
      var v := RawValue(bs, n);
      if v < MinValue(n) || (0xD800 <= v < 0xE000) || v >= 0x110000 then None
      else Some(v as char)
  }

  /** `b.decode()` with strict error handling: `None` for a malformed
      sequence. */
  function Decode(bs: seq<byte>): Option<string>
    decreases |bs|
  {
    if bs == [] then Some("")
    else match DecodeChar(bs)
      case None => None
      case Some(c) =>
        match Decode(bs[LeadLength(bs[0])..])
        case None => None
        case Some(rest) => Some([c] + rest)
  }

  /** Each character's bytes decode back to it. */
  lemma DecodeEncodeChar(c: char, rest: seq<byte>)
    ensures DecodeChar(EncodeChar(c) + rest) == Some(c)
  {
    var e := EncodeChar(c);
    var bs := e + rest;
    var n := c as int;
    assert bs[..|e|] == e;
    assert n == (n / 64) * 64 + n % 64;
    assert n / 64 == (n / 64 / 64) * 64 + (n / 64) % 64;
    assert n / 64 / 64 == (n / 64 / 64 / 64) * 64 + (n / 64 / 64) % 64;
  }

  /** Decoding an encoding gives the string back. */
  lemma {:induction false} DecodeEncode(s: string)
    ensures Decode(Encode(s)) == Some(s)
  {
    if s != [] {
      var e := EncodeChar(s[0]);
      var bs := Encode(s);
      assert bs == e + Encode(s[1..]);
      DecodeEncodeChar(s[0], Encode(s[1..]));
      assert bs[LeadLength(bs[0])..] == Encode(s[1..]);
      DecodeEncode(s[1..]);
      assert [s[0]] + s[1..] == s;
    }
  }

  /** Dividing `hi * 64 + lo` by 64 gives back its two digits. */
  lemma Digits(hi: int, lo: int)
    requires 0 <= lo < 64
    ensures (hi * 64 + lo) / 64 == hi && (hi * 64 + lo) % 64 == lo
  {
  }

  /** The two-byte case of `EncodeDecodeChar`. */
  lemma Reencode2(b0: byte, b1: byte, c: char)
    requires 0xC2 <= b0 < 0xE0 && IsContinuation(b1)
    requires c as int == (b0 as int - 0xC0) * 64 + (b1 as int - 0x80)
    ensures EncodeChar(c) == [b0, b1]
  {
    Digits(b0 as int - 0xC0, b1 as int - 0x80);
  }

  /** The three-byte case of `EncodeDecodeChar`. */
  lemma Reencode3(b0: byte, b1: byte, b2: byte, c: char)
    requires 0xE0 <= b0 < 0xF0 && IsContinuation(b1) && IsContinuation(b2)
    requires c as int >= 0x800
    requires c as int == ((b0 as int - 0xE0) * 64 + (b1 as int - 0x80)) * 64 + (b2 as int - 0x80)
    ensures EncodeChar(c) == [b0, b1, b2]
  {
    var hi := (b0 as int - 0xE0) * 64 + (b1 as int - 0x80);
    Digits(hi, b2 as int - 0x80);
    Digits(b0 as int - 0xE0, b1 as int - 0x80);
  }

  /** The four-byte case of `EncodeDecodeChar`. */
  lemma Reencode4(b0: byte, b1: byte, b2: byte, b3: byte, c: char)
    requires 0xF0 <= b0 < 0xF5 && IsContinuation(b1) && IsContinuation(b2) && IsContinuation(b3)
    requires c as int >= 0x10000
    requires c as int == (((b0 as int - 0xF0) * 64 + (b1 as int - 0x80)) * 64 + (b2 as int - 0x80)) * 64 + (b3 as int - 0x80)
    ensures EncodeChar(c) == [b0, b1, b2, b3]
  {
    var hi := (b0 as int - 0xF0) * 64 + (b1 as int - 0x80);
    var mid := hi * 64 + (b2 as int - 0x80);
    Digits(mid, b3 as int - 0x80);
    Digits(hi, b2 as int - 0x80);
    Digits(b0 as int - 0xF0, b1 as int - 0x80);
  }

  /** A well-formed sequence is the encoding of the character it decodes to:
      the decoder accepts no second spelling of a character. */
  lemma EncodeDecodeChar(bs: seq<byte>)
    requires |bs| > 0 && DecodeChar(bs).Some?
    ensures EncodeChar(DecodeChar(bs).value) == bs[..LeadLength(bs[0])]
  {
    var n := LeadLength(bs[0]);
    var c := DecodeChar(bs).value;
    assert c as int == RawValue(bs, n) >= MinValue(n);
    assert forall i :: 1 <= i < n ==> IsContinuation(bs[i]);
    if n == 2 {
      Reencode2(bs[0], bs[1], c);
      assert bs[..2] == [bs[0], bs[1]];
    } else if n == 3 {
      Reencode3(bs[0], bs[1], bs[2], c);
      assert bs[..3] == [bs[0], bs[1], bs[2]];
    } else if n == 4 {
      Reencode4(bs[0], bs[1], bs[2], bs[3], c);
      assert bs[..4] == [bs[0], bs[1], bs[2], bs[3]];
    }
  }

  /** One step of a successful decode: the first character, then the
      decode of the bytes after its sequence. */
  lemma DecodeStep(bs: seq<byte>)
    requires bs != [] && Decode(bs).Some?
    ensures DecodeChar(bs).Some? && 1 <= LeadLength(bs[0]) <= |bs|
    ensures Decode(bs[LeadLength(bs[0])..]).Some?
    ensures Decode(bs).value == [DecodeChar(bs).value] + Decode(bs[LeadLength(bs[0])..]).value
  {
  }

  /** Encoding a character and a string whose encodings are the two halves
      of `bs` gives `bs`. */
  lemma EncodeCons(bs: seq<byte>, n: nat, c: char, t: string)
    requires n <= |bs| && EncodeChar(c) == bs[..n] && Encode(t) == bs[n..]
    ensures Encode([c] + t) == bs
  {
    assert ([c] + t)[0] == c && ([c] + t)[1..] == t;
    assert bs[..n] + bs[n..] == bs;
  }

  /** Whatever the decoder accepts is exactly the encoding of what it
      returns, so `Encode` and `Decode` are inverse bijections between
      strings and well-formed byte sequences. */
  lemma {:induction false} EncodeDecode(bs: seq<byte>)
    requires Decode(bs).Some?
    ensures Encode(Decode(bs).value) == bs
    decreases |bs|
  {
    if bs != [] {
      var n := LeadLength(bs[0]);
      DecodeStep(bs);
      EncodeDecodeChar(bs);
      EncodeDecode(bs[n..]);
      EncodeCons(bs, n, DecodeChar(bs).value, Decode(bs[n..]).value);
    }
  }

  /** Characters below 0x80 are their own single byte, so an ASCII text is
      sent byte for byte. */
  lemma {:induction false} EncodeAscii(s: string)
    requires forall i :: 0 <= i < |s| ==> s[i] as int < 0x80
    ensures |Encode(s)| == |s|
    ensures forall i :: 0 <= i < |s| ==> Encode(s)[i] as int == s[i] as int
  {
    if s != [] {
      EncodeAscii(s[1..]);
    }
  }
}
