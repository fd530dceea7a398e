/**
The canonical text unit by unit: which strings are printed as they are, and the exact form of every escape
that `JSON.stringify` writes (section 7 of RFC 8259, lower-case digits, lone surrogates escaped).
*/
module JsonText {
  import opened Text
  import opened Json

  /** No unit that has to be escaped, surrogates only in pairs. */
  predicate Unescaped(t: Text) {
    t == [] ||
    (if 0xD800 <= t[0] <= 0xDBFF then |t| > 1 && 0xDC00 <= t[1] <= 0xDFFF && Unescaped(t[2..])
     else 0x20 <= t[0] && t[0] != 0x22 && t[0] != 0x5C && !(0xDC00 <= t[0] <= 0xDFFF) && Unescaped(t[1..]))
  }

  lemma {:induction false} UnescapedBody(t: Text)
    requires Unescaped(t)
    ensures QuoteBody(t) == t
    decreases |t|
  {
    if t != [] {
      if 0xD800 <= t[0] <= 0xDBFF {
        UnescapedBody(t[2..]);
        assert t == t[..2] + t[2..];
      } else {
        UnescapedBody(t[1..]);
        assert t == [t[0]] + t[1..];
      }
    }
  }

  /** A string without quotation marks, reverse solidi, controls and lone surrogates is printed as it is. */
  lemma PrintedAsIs(t: Text)
    requires Unescaped(t)
    ensures StableJson(Str(t)) == [0x22] + t + [0x22]
  {
    UnescapedBody(t);
  }

  /** A lower-case hexadecimal digit, and its value. */
  predicate IsHexUnit(u: Unit) { 0x30 <= u <= 0x39 || 0x61 <= u <= 0x66 }

  function HexValue(u: Unit): int { if u <= 0x39 then u as int - 0x30 else u as int - 0x57 }

  /** The units that have an escape of two units, with its second one. */
  const SHORT: map<int, Unit> :=
    map[0x22 := 0x22, 0x5C := 0x5C, 0x08 := 0x62, 0x09 := 0x74, 0x0A := 0x6E, 0x0C := 0x66, 0x0D := 0x72]

  /** What one unit that is not part of a surrogate pair is printed as. */
  ghost predicate PrintsUnit(u: Unit, t: Text) {
    if u in SHORT then t == [0x5C, SHORT[u]]
    else if u < 0x20 || 0xD800 <= u <= 0xDFFF then
      && |t| == 6 && t[0] == 0x5C && t[1] == 0x75 && (forall i | 2 <= i < 6 :: IsHexUnit(t[i]))
      && u == ((HexValue(t[2]) * 16 + HexValue(t[3])) * 16 + HexValue(t[4])) * 16 + HexValue(t[5])
    else t == [u]
  }

  lemma FourDigits(u: Unit)
    ensures u == ((u / 4096 * 16 + u / 256 % 16) * 16 + u / 16 % 16) * 16 + u % 16
    ensures 0 <= u / 4096 < 16 && 0 <= u / 256 % 16 < 16 && 0 <= u / 16 % 16 < 16 && 0 <= u % 16 < 16
  {
    assert u / 4096 == u / 256 / 16 && u / 256 == u / 16 / 16;
  }

  lemma HexPrints(n: nat)
    requires n < 16
    ensures IsHexUnit(HexDigit(n)) && HexValue(HexDigit(n)) == n
  {}

  lemma Hex4Prints(u: Unit)
    ensures var t := Hex4(u);
      |t| == 4 && (forall i | 0 <= i < 4 :: IsHexUnit(t[i])) &&
      u == ((HexValue(t[0]) * 16 + HexValue(t[1])) * 16 + HexValue(t[2])) * 16 + HexValue(t[3])
  {
    hide HexDigit, IsHexUnit, HexValue;
    FourDigits(u);
    HexPrints(u / 4096);
    HexPrints(u / 256 % 16);
    HexPrints(u / 16 % 16);
    HexPrints(u % 16);
  }

  /** The exact text of a string of one unit. */
  lemma OneUnitPrinted(u: Unit)
    ensures PrintsUnit(u, QuoteBody([u]))
    ensures StableJson(Str([u])) == [0x22] + QuoteBody([u]) + [0x22]
  {
    hide Hex4, IsHexUnit, HexValue;
    Hex4Prints(u);
    assert QuoteBody([u]) == Escape(u) + QuoteBody([u][1..]);
    assert [u][1..] == [] && Escape(u) + [] == Escape(u);
  }

  /** A surrogate pair is printed as it is. */
  lemma PairPrinted(h: Unit, l: Unit)
    requires 0xD800 <= h <= 0xDBFF && 0xDC00 <= l <= 0xDFFF
    ensures QuoteBody([h, l]) == [h, l]
  {
    assert [h, l][2..] == [] && [h, l][..2] == [h, l];
  }

  lemma BodyStep(t: Text)
    requires t != []
    ensures QuoteBody(t) ==
      if |t| > 1 && High(t[0]) && Low(t[1]) then t[..2] + QuoteBody(t[2..]) else Escape(t[0]) + QuoteBody(t[1..])
  {}

  /** Printing a string is printing its parts, where no surrogate pair is split. */
  lemma {:induction false} PrintedInParts(a: Text, b: Text)
    requires !(a != [] && b != [] && 0xD800 <= a[|a| - 1] <= 0xDBFF && 0xDC00 <= b[0] <= 0xDFFF)
    ensures QuoteBody(a + b) == QuoteBody(a) + QuoteBody(b)
    decreases |a|
  {
    if a == [] {
      assert a + b == b;
    } else {
      hide Escape, QuoteBody;
      var n := if |a| > 1 && High(a[0]) && Low(a[1]) then 2 else 1;
      var first := if n == 2 then a[..2] else Escape(a[0]);
      Split(a, b, n);
      BodyStep(a);
      BodyStep(a + b);
      PrintedInParts(a[n..], b);
      Associates(first, QuoteBody(a[n..]), QuoteBody(b));
    }
  }

  lemma Split(a: Text, b: Text, n: nat)
    requires 1 <= n <= 2 && n <= |a|
    ensures (a + b)[n..] == a[n..] + b && (a + b)[..n] == a[..n] && (a + b)[0] == a[0]
    ensures |a| > 1 ==> (a + b)[1] == a[1]
    ensures n < |a| ==> a[n..] != [] && a[n..][|a| - n - 1] == a[|a| - 1]
  {}

  lemma Associates(x: Text, y: Text, z: Text)
    ensures (x + y) + z == x + (y + z)
  {}

  /** Items are joined with commas between brackets, and nothing else is written. */
  lemma ArrayText(items: seq<Json>, v: Json)
    ensures StableJson(Arr([])) == [0x5B, 0x5D]
    ensures StableJson(Arr([v])) == [0x5B] + StableJson(v) + [0x5D]
    ensures items != [] ==>
      StableJson(Arr([v] + items)) == [0x5B] + StableJson(v) + [0x2C] + StableJson(Arr(items))[1..]
  {
    assert ([v] + items)[1..] == items && ([v] + items)[0] == v;
  }

  lemma Words()
    ensures StableJson(Null) == L("null") && StableJson(Bool(true)) == L("true") &&
      StableJson(Bool(false)) == L("false")
  {}

  /** Members are printed alike in two objects that agree on them. */
  lemma {:induction false} SameMembers(v: Json, w: Json, ks: seq<Text>)
    requires v.Obj? && w.Obj? && forall k | k in ks :: k in v.members && k in w.members && v.members[k] == w.members[k]
    ensures MembersText(v, ks) == MembersText(w, ks)
  {
    if |ks| > 1 { SameMembers(v, w, ks[1..]); }
  }

  /** Members are joined with commas between braces, a key is followed by a colon, the least key comes first. */
  lemma ObjectText(m: map<Text, Json>, k: Text, v: Json)
    requires k !in m && forall j | j in m :: Leq(k, j)
    ensures StableJson(Obj(map[])) == [0x7B, 0x7D]
    ensures StableJson(Obj(m[k := v])) ==
      [0x7B] + StableJson(Str(k)) + [0x3A] + StableJson(v) +
      (if m == map[] then [0x7D] else [0x2C] + StableJson(Obj(m))[1..])
  {
    hide Leq, Quote, MembersText, StableJson;
    var o, ks := Obj(m[k := v]), Ascending(m.Keys);
    Braces(Obj(m));
    Braces(o);
    NoMembers();
    assert StableJson(Str(k)) == Quote(k) by { StringText(k); }
    LeqTotal(k, k);
    AscendingStep(o.members.Keys, k);
    assert o.members.Keys - {k} == m.Keys;
    SameMembers(o, Obj(m), ks);
    JoinedText(o, k, v, ks);
    assert m == map[] <==> ks == [] by { SameEmptiness(m); }
    Assembled(Quote(k), StableJson(v), MembersText(Obj(m), ks));
  }

  lemma SameEmptiness(m: map<Text, Json>)
    ensures m == map[] <==> Ascending(m.Keys) == []
  {
    if m != map[] {
      var j :| j in m;
      assert j in Ascending(m.Keys);
    }
  }

  lemma Assembled(key: Text, value: Text, rest: Text)
    ensures [0x7B] + (key + [0x3A] + value + []) + [0x7D] == [0x7B] + key + [0x3A] + value + [0x7D]
    ensures [0x7B] + (key + [0x3A] + value + ([0x2C] + rest)) + [0x7D] ==
      [0x7B] + key + [0x3A] + value + ([0x2C] + ([0x7B] + rest + [0x7D])[1..])
  {
    assert ([0x7B] + rest + [0x7D])[1..] == rest + [0x7D];
  }

  lemma Braces(o: Json)
    requires o.Obj?
    ensures StableJson(o) == [0x7B] + MembersText(o, Ascending(o.members.Keys)) + [0x7D]
  {}

  lemma NoMembers()
    ensures StableJson(Obj(map[])) == [0x7B, 0x7D]
  {
    var none: map<Text, Json> := map[];
    assert none.Keys == {} && Ascending(none.Keys) == [];
  }

  lemma StringText(t: Text)
    ensures StableJson(Str(t)) == Quote(t)
  {}

  lemma JoinedText(o: Json, k: Text, v: Json, ks: seq<Text>)
    requires o.Obj? && k in o.members && o.members[k] == v && forall j | j in ks :: j in o.members
    ensures MembersText(o, [k] + ks) ==
      Quote(k) + [0x3A] + StableJson(v) + (if ks == [] then [] else [0x2C] + MembersText(o, ks))
  {
    hide Quote, StableJson;
    assert ([k] + ks)[1..] == ks;
  }
}
