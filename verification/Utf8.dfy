/** Strict UTF-8 (sections 3 and 4 of RFC 3629), as `bytes.decode("utf-8")` applies it. */
module Utf8 {
  import opened Common

  /** Code points other than surrogates. */
  type Scalar = c: int | 0 <= c < 0xD800 || 0xE000 <= c < 0x11_0000

  function EncodeOne(c: Scalar): (b: Bytes)
    ensures 1 <= |b| <= 4
  {
    if c < 0x80 then [c]
    else if c < 0x800 then [0xC0 + c / 64, 0x80 + c % 64]
    else if c < 0x1_0000 then [0xE0 + c / 4096, 0x80 + c / 64 % 64, 0x80 + c % 64]
    else [0xF0 + c / 262144, 0x80 + c / 4096 % 64, 0x80 + c / 64 % 64, 0x80 + c % 64]
  }

  function Encode(text: seq<Scalar>): Bytes {
    if text == [] then [] else EncodeOne(text[0]) + Encode(text[1..])
  }

  predicate Tail(b: byte) { 0x80 <= b < 0xC0 }

  /** How many bytes a first byte announces, 0 for one that begins nothing. */
  function Width(b: byte): nat {
    if b < 0x80 then 1
    else if 0xC2 <= b < 0xE0 then 2
    else if 0xE0 <= b < 0xF0 then 3
    else if 0xF0 <= b < 0xF5 then 4
    else 0
  }

  /** Base 64, most significant digit first. */
  function Number(a: int, b: int, c: int, d: int): int { ((a * 64 + b) * 64 + c) * 64 + d }

  /** The bits that the announced bytes carry, whatever they are. */
  function Bits(b: Bytes): int
    requires b != [] && |b| >= Width(b[0])
  {
    var first: int := b[0];
    var w := Width(b[0]);
    if w <= 1 then first
    else
      var second: int := b[1];
      if w == 2 then Number(0, 0, first - 0xC0, second - 0x80)
      else
        var third: int := b[2];
        if w == 3 then Number(0, first - 0xE0, second - 0x80, third - 0x80)
        else
          var fourth: int := b[3];
          Number(first - 0xF0, second - 0x80, third - 0x80, fourth - 0x80)
  }

  lemma Digits(a: nat, b: nat, c: nat, d: nat)
    requires b < 64 && c < 64 && d < 64
    ensures
      var n := Number(a, b, c, d);
      n % 64 == d && n / 64 % 64 == c && n / 4096 % 64 == b && n / 262144 == a && n / 4096 == a * 64 + b
      && n / 64 == (a * 64 + b) * 64 + c
  {
  }

  lemma FromDigits(n: nat)
    ensures Number(n / 262144, n / 4096 % 64, n / 64 % 64, n % 64) == n
  {
  }

  /** No form longer than needed, no surrogate, nothing beyond the last code point. */
  predicate InRange(w: nat, c: int) {
    match w
    case 1 => true
    case 2 => true
    case 3 => 0x800 <= c && (c < 0xD800 || 0xE000 <= c)
    case 4 => 0x1_0000 <= c < 0x11_0000
    case _ => false
  }

  /** The first code point of b, and how many bytes it takes. */
  function DecodeOne(b: Bytes): (r: Option<(Scalar, nat)>)
    requires b != []
    ensures r.Some? ==> 1 <= r.value.1 <= |b|
  {
    var w := Width(b[0]);
    if w == 0 || |b| < w || !(forall i :: 1 <= i < w ==> Tail(b[i])) || !InRange(w, Bits(b)) then None
    else Some((Bits(b), w))
  }

  function Decode(b: Bytes): Option<seq<Scalar>>
    decreases |b|
  {
    if b == [] then Some([])
    else
      var first := DecodeOne(b);
      if first.None? then None
      else
        var rest := Decode(b[first.value.1..]);
        if rest.None? then None else Some([first.value.0] + rest.value)
  }

  lemma EncodeDecodeOne(b: Bytes)
    requires b != [] && DecodeOne(b).Some?
    ensures EncodeOne(DecodeOne(b).value.0) == b[..DecodeOne(b).value.1]
  {
    var w := Width(b[0]);
    assert forall i :: 1 <= i < w ==> Tail(b[i]);
    if w == 2 {
      TwoBack(b);
    } else if w == 3 {
      ThreeBack(b);
    } else if w == 4 {
      FourBack(b);
    }
  }

  lemma TwoBack(b: Bytes)
    requires b != [] && Width(b[0]) == 2 && |b| >= 2 && Tail(b[1])
    ensures 0x80 <= Bits(b) < 0x800 && EncodeOne(Bits(b)) == b[..2]
  {
    var x: int, y: int := b[0], b[1];
    Digits(0, 0, x - 0xC0, y - 0x80);
  }

  lemma ThreeBack(b: Bytes)
    requires b != [] && Width(b[0]) == 3 && |b| >= 3 && Tail(b[1]) && Tail(b[2]) && InRange(3, Bits(b))
    ensures 0x800 <= Bits(b) < 0x1_0000 && EncodeOne(Bits(b)) == b[..3]
  {
    var x: int, y: int, z: int := b[0], b[1], b[2];
    Digits(0, x - 0xE0, y - 0x80, z - 0x80);
  }

  lemma FourBack(b: Bytes)
    requires b != [] && Width(b[0]) == 4 && |b| >= 4 && Tail(b[1]) && Tail(b[2]) && Tail(b[3]) && InRange(4, Bits(b))
    ensures EncodeOne(Bits(b)) == b[..4]
  {
    var x: int, y: int, z: int, t: int := b[0], b[1], b[2], b[3];
    Digits(x - 0xF0, y - 0x80, z - 0x80, t - 0x80);
  }

  lemma DecodeEncodeOne(c: Scalar, rest: Bytes)
    ensures DecodeOne(EncodeOne(c) + rest) == Some((c, |EncodeOne(c)|))
  {
    var b := EncodeOne(c) + rest;
    FromDigits(c);
    assert forall i :: 1 <= i < |EncodeOne(c)| ==> Tail(b[i]);
    assert Width(b[0]) == |EncodeOne(c)| && Bits(b) == c;
  }

  lemma DecodeUnfolds(b: Bytes) returns (c: Scalar, n: nat)
    requires b != [] && Decode(b).Some?
    ensures 1 <= n <= |b| && EncodeOne(c) == b[..n] && Decode(b[n..]).Some?
    ensures Decode(b).value == [c] + Decode(b[n..]).value
  {
    EncodeDecodeOne(b);
    return DecodeOne(b).value.0, DecodeOne(b).value.1;
  }

  /** Decoding loses nothing: no two byte strings have the same text. */
  lemma {:induction false} EncodeDecode(b: Bytes)
    requires Decode(b).Some?
    ensures Encode(Decode(b).value) == b
    decreases |b|
  {
    if b != [] {
      var c, n := DecodeUnfolds(b);
      EncodeDecode(b[n..]);
      EncodeCons(c, Decode(b[n..]).value);
      assert b == b[..n] + b[n..];
    }
  }

  lemma EncodeCons(c: Scalar, text: seq<Scalar>)
    ensures Encode([c] + text) == EncodeOne(c) + Encode(text)
  {
    assert ([c] + text)[1..] == text;
  }

  /** And every text has a form. */
  lemma {:induction false} DecodeEncode(text: seq<Scalar>)
    ensures Decode(Encode(text)) == Some(text)
    decreases |text|
  {
    if text != [] {
      var rest := Encode(text[1..]);
      DecodeEncodeOne(text[0], rest);
      DecodeEncode(text[1..]);
      assert (EncodeOne(text[0]) + rest)[|EncodeOne(text[0])|..] == rest;
      assert [text[0]] + text[1..] == text;
    }
  }
}
