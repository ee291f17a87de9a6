/** UTF-8: the encoding of section 3 of RFC 3629 and the decoder that the proxy's logger relies on,
    which lets an octet that starts no well-formed sequence stand for itself. */
module Utf8 {
  import opened Frames

  const RUNE_ERROR: nat := 0xFFFD

  /** Scalar values: the code points that section 3 of RFC 3629 allows to be encoded. */
  predicate Scalar(r: nat) {
    r < 0xD800 || 0xE000 <= r < 0x110000
  }

  function Encode(r: nat): (bytes: seq<Byte>)
    requires Scalar(r)
    ensures 1 <= |bytes| <= 4
    ensures forall i :: 0 <= i < |bytes| ==> bytes[i] < 0x80 ==> r == bytes[i]
  {
    if r < 0x80 then [r]
    else if r < 0x800 then [0xC0 + r / 64, 0x80 + r % 64]
    else if r < 0x10000 then [0xE0 + r / 4096, 0x80 + r / 64 % 64, 0x80 + r % 64]
    else [0xF0 + r / 262144, 0x80 + r / 4096 % 64, 0x80 + r / 64 % 64, 0x80 + r % 64]
  }

  datatype Decoded = Decoded(rune: nat, width: nat)

  const INVALID := Decoded(RUNE_ERROR, 1)

  /** The length of a sequence that starts with `b`, or 0 if none does. */
  function SizeFor(b: Byte): nat {
    if b < 0x80 then 1
    else if b < 0xC2 then 0
    else if b < 0xE0 then 2
    else if b < 0xF0 then 3
    else if b < 0xF5 then 4
    else 0
  }

  /** The octets that may come second, by section 4 of RFC 3629. */
  predicate SecondFits(b: Byte, second: Byte) {
    var lo := if b == 0xE0 then 0xA0 else if b == 0xF0 then 0x90 else 0x80;
    var hi := if b == 0xED then 0x9F else if b == 0xF4 then 0x8F else 0xBF;
    lo <= second <= hi
  }

  predicate Tail(b: Byte) {
    0x80 <= b <= 0xBF
  }

  /** The payload bits of an octet whose marker is `base`. */
  function Bits(b: Byte, base: nat): nat
    requires base <= b
  {
    var n: int := b;
    n - base
  }

  /** utf8.DecodeRune on a nonempty slice. */
  function DecodeRune(p: seq<Byte>): (d: Decoded)
    requires p != []
    ensures 1 <= d.width <= |p|
  {
    var size := SizeFor(p[0]);
    if size == 1 then Decoded(p[0], 1)
    else if size == 0 || |p| < size || !SecondFits(p[0], p[1]) then INVALID
    else if size == 2 then Decoded(Bits(p[0], 0xC0) * 64 + Bits(p[1], 0x80), 2)
    else if !Tail(p[2]) then INVALID
    else if size == 3 then Decoded(Bits(p[0], 0xE0) * 4096 + Bits(p[1], 0x80) * 64 + Bits(p[2], 0x80), 3)
    else if !Tail(p[3]) then INVALID
    else Decoded(Bits(p[0], 0xF0) * 262144 + Bits(p[1], 0x80) * 4096 + Bits(p[2], 0x80) * 64 + Bits(p[3], 0x80), 4)
  }

  /** The encoding of a scalar value decodes to it, whatever follows. */
  lemma DecodeEncode(r: nat, rest: seq<Byte>)
    requires Scalar(r)
    ensures DecodeRune(Encode(r) + rest) == Decoded(r, |Encode(r)|)
  {
    var e := Encode(r);
    var p := e + rest;
    assert forall i :: 0 <= i < |e| ==> p[i] == e[i];
    if r < 0x80 {
    } else if r < 0x800 {
      assert r == r / 64 * 64 + r % 64;
    } else if r < 0x10000 {
      Digits(r);
    } else {
      Digits(r);
    }
  }

  /** `r` from its base-64 digits. */
  lemma Digits(r: nat)
    ensures r == r / 4096 * 4096 + r / 64 % 64 * 64 + r % 64
    ensures r == r / 262144 * 262144 + r / 4096 % 64 * 4096 + r / 64 % 64 * 64 + r % 64
  {
    assert r / 64 / 64 == r / 4096;
    assert r / 4096 / 64 == r / 262144;
  }

  /** A decoded sequence is the encoding of the decoded value. */
  lemma EncodeDecode(p: seq<Byte>)
    requires p != [] && DecodeRune(p) != INVALID
    ensures Scalar(DecodeRune(p).rune)
    ensures p[..DecodeRune(p).width] == Encode(DecodeRune(p).rune)
  {
    var width := DecodeRune(p).width;
    assert width == SizeFor(p[0]);
    if width <= 2 { EncodeShort(p); } else if width == 3 { EncodeThree(p); } else { EncodeFour(p); }
  }

  lemma EncodeShort(p: seq<Byte>)
    requires p != [] && DecodeRune(p) != INVALID && SizeFor(p[0]) == DecodeRune(p).width <= 2
    ensures Scalar(DecodeRune(p).rune)
    ensures p[..DecodeRune(p).width] == Encode(DecodeRune(p).rune)
  {
    if DecodeRune(p).width == 1 { assert p[..1] == [p[0]]; } else { assert p[..2] == [p[0], p[1]]; }
  }

  lemma EncodeThree(p: seq<Byte>)
    requires p != [] && DecodeRune(p) != INVALID && SizeFor(p[0]) == DecodeRune(p).width == 3
    ensures Scalar(DecodeRune(p).rune)
    ensures p[..3] == Encode(DecodeRune(p).rune)
  {
    assert p[..3] == [p[0], p[1], p[2]];
    ThreeDigits(Bits(p[0], 0xE0), Bits(p[1], 0x80), Bits(p[2], 0x80));
  }

  lemma EncodeFour(p: seq<Byte>)
    requires p != [] && DecodeRune(p) != INVALID && SizeFor(p[0]) == DecodeRune(p).width == 4
    ensures Scalar(DecodeRune(p).rune)
    ensures p[..4] == Encode(DecodeRune(p).rune)
  {
    assert p[..4] == [p[0], p[1], p[2], p[3]];
    FourDigits(Bits(p[0], 0xF0), Bits(p[1], 0x80), Bits(p[2], 0x80), Bits(p[3], 0x80));
  }

  lemma ThreeDigits(a: nat, b: nat, c: nat)
    requires b < 64 && c < 64
    ensures var r := a * 4096 + b * 64 + c;
            r / 4096 == a && r / 64 % 64 == b && r % 64 == c
  {
    var r := a * 4096 + b * 64 + c;
    assert r / 64 == a * 64 + b;
  }

  lemma FourDigits(a: nat, b: nat, c: nat, d: nat)
    requires b < 64 && c < 64 && d < 64
    ensures var r := a * 262144 + b * 4096 + c * 64 + d;
            r / 262144 == a && r / 4096 % 64 == b && r / 64 % 64 == c && r % 64 == d
  {
    var r := a * 262144 + b * 4096 + c * 64 + d;
    ThreeDigits(a * 64 + b, c, d);
    assert r / 4096 == a * 64 + b;
  }

  /** The decoder reports an invalid octet exactly if no scalar value's encoding starts the slice. */
  lemma InvalidIff(p: seq<Byte>)
    requires p != []
    ensures DecodeRune(p) == INVALID <==> forall r :: Scalar(r) ==> !(Encode(r) <= p)
  {
    if DecodeRune(p) == INVALID {
      forall r | Scalar(r) ensures !(Encode(r) <= p) {
        if Encode(r) <= p {
          assert p == Encode(r) + p[|Encode(r)|..];
          DecodeEncode(r, p[|Encode(r)|..]);
        }
      }
    } else {
      EncodeDecode(p);
      assert Encode(DecodeRune(p).rune) <= p;
    }
  }

  predicate AllScalar(runes: seq<nat>) {
    forall i :: 0 <= i < |runes| ==> Scalar(runes[i])
  }

  function EncodeAll(runes: seq<nat>): seq<Byte>
    requires AllScalar(runes)
  {
    if runes == [] then [] else Encode(runes[0]) + EncodeAll(runes[1..])
  }
}
