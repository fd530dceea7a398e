/**
The bytes that are hashed and signed: UTF-8 of the canonical text. Canonical text is well-formed
UTF-16, so the encoder never substitutes a character and the bytes determine the value.
*/
module CanonicalBytes {
  import opened Text
  import opened Json
  import opened JsObjects
  import JsonReader

  type Byte = b: int | 0 <= b < 256

  /** Scalar value of a surrogate pair. */
  function Scalar(h: Unit, l: Unit): int
    requires High(h) && Low(l)
  {
    0x1_0000 + (h - 0xD800) * 0x400 + (l - 0xDC00)
  }

  function EncodeUnit(u: Unit): seq<Byte> {
    if u < 0x80 then [u]
    else if u < 0x800 then [0xC0 + u / 64, 0x80 + u % 64]
    else [0xE0 + u / 4096, 0x80 + u / 64 % 64, 0x80 + u % 64]
  }

  function EncodePair(h: Unit, l: Unit): seq<Byte>
    requires High(h) && Low(l)
  {
    var c := Scalar(h, l);
    [0xF0 + c / 262144, 0x80 + c / 4096 % 64, 0x80 + c / 64 % 64, 0x80 + c % 64]
  }

  /** `Buffer.from(text)` on well-formed text. */
  function Utf8(t: Text): seq<Byte>
    requires WellFormed(t)
  {
    if t == [] then []
    else if High(t[0]) then EncodePair(t[0], t[1]) + Utf8(t[2..])
    else EncodeUnit(t[0]) + Utf8(t[1..])
  }

  function Unit16(n: int): Unit {
    if 0 <= n < 0x1_0000 then n else 0
  }

  /** A byte as a number. */
  function At(b: seq<Byte>, i: nat): int
    requires i < |b|
  {
    b[i]
  }

  /** The units of the first character and what is left. */
  function DecodeFirst(b: seq<Byte>): (r: (Text, seq<Byte>))
    requires b != []
    ensures |r.1| < |b|
  {
    if b[0] < 0x80 || |b| < 2 then ([Unit16(b[0])], b[1..])
    else if b[0] < 0xE0 || |b| < 3 then ([Unit16((At(b, 0) - 0xC0) * 64 + (At(b, 1) - 0x80))], b[2..])
    else if b[0] < 0xF0 || |b| < 4 then
      ([Unit16((At(b, 0) - 0xE0) * 4096 + (At(b, 1) - 0x80) * 64 + (At(b, 2) - 0x80))], b[3..])
    else
      var c := (At(b, 0) - 0xF0) * 262144 + (At(b, 1) - 0x80) * 4096 + (At(b, 2) - 0x80) * 64
        + (At(b, 3) - 0x80) - 0x1_0000;
      ([Unit16(0xD800 + c / 0x400), Unit16(0xDC00 + c % 0x400)], b[4..])
  }

  function Decode(b: seq<Byte>): Text
    decreases |b|
  {
    if b == [] then [] else DecodeFirst(b).0 + Decode(DecodeFirst(b).1)
  }

  predicate Continues(b: Byte) { 0x80 <= b <= 0xBF }

  /** The shortest form of every character: one to four bytes by its range, with the lead bytes of RFC 3629. */
  lemma ShortestForm(u: Unit)
    requires !High(u) && !Low(u)
    ensures var b := EncodeUnit(u);
      if u < 0x80 then b == [u]
      else if u < 0x800 then |b| == 2 && 0xC2 <= b[0] <= 0xDF && Continues(b[1])
      else |b| == 3 && 0xE0 <= b[0] <= 0xEF && Continues(b[1]) && Continues(b[2])
  {}

  lemma PairForm(h: Unit, l: Unit)
    requires High(h) && Low(l)
    ensures var b := EncodePair(h, l);
      |b| == 4 && 0xF0 <= b[0] <= 0xF4 && Continues(b[1]) && Continues(b[2]) && Continues(b[3])
  {}

  lemma DecodeUnit(u: Unit, rest: seq<Byte>)
    requires !High(u) && !Low(u)
    ensures DecodeFirst(EncodeUnit(u) + rest) == ([u], rest)
  {
    var b := EncodeUnit(u) + rest;
    assert u / 4096 == u / 64 / 64;
    assert b[|EncodeUnit(u)|..] == rest;
  }

  lemma DecodePair(h: Unit, l: Unit, rest: seq<Byte>)
    requires High(h) && Low(l)
    ensures DecodeFirst(EncodePair(h, l) + rest) == ([h, l], rest)
  {
    var c := Scalar(h, l);
    var b := EncodePair(h, l) + rest;
    assert c / 4096 == c / 64 / 64 && c / 262144 == c / 64 / 64 / 64;
    assert b[4..] == rest;
    assert c == (At(b, 0) - 0xF0) * 262144 + (At(b, 1) - 0x80) * 4096 + (At(b, 2) - 0x80) * 64 + (At(b, 3) - 0x80);
  }

  lemma {:induction false} DecodeEncoded(t: Text)
    requires WellFormed(t)
    ensures Decode(Utf8(t)) == t
    decreases |t|
  {
    if t == [] {
    } else if High(t[0]) {
      DecodePair(t[0], t[1], Utf8(t[2..]));
      DecodeEncoded(t[2..]);
      assert t == [t[0], t[1]] + t[2..];
    } else {
      DecodeUnit(t[0], Utf8(t[1..]));
      DecodeEncoded(t[1..]);
      assert t == [t[0]] + t[1..];
    }
  }

  /** What is hashed and signed for a JSON value. */
  function Bytes(v: Json): seq<Byte> {
    StableJsonWellFormed(v);
    Utf8(StableJson(v))
  }

  lemma BytesInjective(v: Json, w: Json)
    ensures Bytes(v) == Bytes(w) <==> v == w
  {
    StableJsonWellFormed(v);
    StableJsonWellFormed(w);
    DecodeEncoded(StableJson(v));
    DecodeEncoded(StableJson(w));
    JsonReader.StableJsonInjective(v, w);
  }

  /** The signed bytes of two objects agree exactly when they are equal up to key order. */
  lemma CanonicalBytes(x: Js, y: Js)
    requires Valid(x) && Valid(y)
    ensures WellFormed(StableJs(x)) && WellFormed(StableJs(y))
    ensures Utf8(StableJs(x)) == Utf8(StableJs(y)) <==> Value(x) == Value(y)
  {
    PrintsValue(x);
    PrintsValue(y);
    StableJsonWellFormed(Value(x));
    StableJsonWellFormed(Value(y));
    BytesInjective(Value(x), Value(y));
  }
}
