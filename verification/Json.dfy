/**
JSON values and their canonical text (`stableJson`), with the string quoting of
`JSON.stringify`: section 7 of RFC 8259 plus the escaping of lone surrogates.
*/
module Json {
  import opened Text

  /** The text JavaScript prints for a finite number; numbers of the model are these texts. */
  predicate IsNumeralUnit(u: Unit) {
    0x30 <= u <= 0x39 || u in {0x2B, 0x2D, 0x2E, 0x45, 0x65}
  }

  predicate IsNumeral(t: Text) {
    t != [] && (t[0] == 0x2D || 0x30 <= t[0] <= 0x39) && forall u | u in t :: IsNumeralUnit(u)
  }

  type Numeral = t: Text | IsNumeral(t) witness [0x30]

  /** An object is a map: the order of its keys is not part of the value. */
  datatype Json =
    | Null
    | Bool(b: bool)
    | Num(numeral: Numeral)
    | Str(text: Text)
    | Arr(items: seq<Json>)
    | Obj(members: map<Text, Json>)

  function Nat(n: nat): Json {
    var t := Digits(n);
    Num(t)
  }

  /** A whole number, with its sign. */
  function Int(n: int): Json {
    if n >= 0 then Nat(n) else Negative(-n)
  }

  function Negative(n: nat): Json {
    var t: Text := [0x2D] + Digits(n);
    Num(t)
  }

  /** An object literal of the source. */
  function Members(fields: seq<(string, Json)>): map<Text, Json> {
    if fields == [] then map[]
    else Members(fields[..|fields| - 1])[L(fields[|fields| - 1].0) := fields[|fields| - 1].1]
  }

  function Object(fields: seq<(string, Json)>): Json {
    Obj(Members(fields))
  }

  /* ---- strings ---- */

  predicate High(u: Unit) { 0xD800 <= u <= 0xDBFF }
  predicate Low(u: Unit) { 0xDC00 <= u <= 0xDFFF }

  function HexDigit(n: nat): Unit
    requires n < 16
  {
    if n < 10 then 0x30 + n else 0x57 + n
  }

  function Hex4(u: Unit): Text {
    [HexDigit(u / 4096), HexDigit(u / 256 % 16), HexDigit(u / 16 % 16), HexDigit(u % 16)]
  }

  /** One code unit that is not half of a surrogate pair. */
  function Escape(u: Unit): (t: Text)
    ensures t != []
  {
    if u == 0x08 then [0x5C, 0x62]
    else if u == 0x09 then [0x5C, 0x74]
    else if u == 0x0A then [0x5C, 0x6E]
    else if u == 0x0C then [0x5C, 0x66]
    else if u == 0x0D then [0x5C, 0x72]
    else if u == 0x22 || u == 0x5C then [0x5C, u]
    else if u < 0x20 || High(u) || Low(u) then [0x5C, 0x75] + Hex4(u)
    else [u]
  }

  function QuoteBody(t: Text): Text {
    if t == [] then []
    else if |t| > 1 && High(t[0]) && Low(t[1]) then t[..2] + QuoteBody(t[2..])
    else Escape(t[0]) + QuoteBody(t[1..])
  }

  function Quote(t: Text): Text {
    [0x22] + QuoteBody(t) + [0x22]
  }

  /* ---- values ---- */

  /** Canonical text of a value: object keys ascending, arrays in order. */
  function StableJson(v: Json): (t: Text)
    ensures t != []
    decreases v, 1, 0
  {
    match v
    case Null => L("null")
    case Bool(b) => if b then L("true") else L("false")
    case Num(n) => n
    case Str(s) => Quote(s)
    case Arr(items) => [0x5B] + ItemsText(items) + [0x5D]
    case Obj(members) => [0x7B] + MembersText(v, Ascending(members.Keys)) + [0x7D]
  }

  function ItemsText(items: seq<Json>): Text
    decreases items, 0, 0
  {
    if items == [] then []
    else if |items| == 1 then StableJson(items[0])
    else StableJson(items[0]) + [0x2C] + ItemsText(items[1..])
  }

  function MemberText(v: Json, k: Text): Text
    requires v.Obj? && k in v.members
    decreases v, 0, 0
  {
    Quote(k) + [0x3A] + StableJson(v.members[k])
  }

  function MembersText(v: Json, ks: seq<Text>): Text
    requires v.Obj? && forall k | k in ks :: k in v.members
    decreases v, 0, |ks|
  {
    if ks == [] then []
    else if |ks| == 1 then MemberText(v, ks[0])
    else MemberText(v, ks[0]) + [0x2C] + MembersText(v, ks[1..])
  }
}
