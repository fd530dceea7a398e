/**
A reader for canonical JSON text. It exists to show that `stableJson` loses nothing: the text
of a value determines the value, whatever follows it.
*/
module JsonReader {
  import opened Text
  import opened Json

  datatype Read<T> = Fail | Done(value: T, rest: Text)

  /* ---- strings ---- */

  function HexValue(u: Unit): int {
    if 0x30 <= u <= 0x39 then u - 0x30 else if 0x61 <= u <= 0x66 then u - 0x57 else -1
  }

  function ReadHex4(s: Text): Read<Unit> {
    if |s| < 4 || HexValue(s[0]) < 0 || HexValue(s[1]) < 0 || HexValue(s[2]) < 0 || HexValue(s[3]) < 0 then Fail
    else Done(HexValue(s[0]) * 4096 + HexValue(s[1]) * 256 + HexValue(s[2]) * 16 + HexValue(s[3]), s[4..])
  }

  /** The unit that follows a reverse solidus, by the table in section 7 of RFC 8259. */
  function ReadEscape(s: Text): (r: Read<Unit>)
    ensures r.Done? ==> |r.rest| < |s|
  {
    if s == [] then Fail
    else if s[0] in {0x22, 0x5C, 0x2F} then Done(s[0], s[1..])
    else if s[0] == 0x62 then Done(0x08, s[1..])
    else if s[0] == 0x74 then Done(0x09, s[1..])
    else if s[0] == 0x6E then Done(0x0A, s[1..])
    else if s[0] == 0x66 then Done(0x0C, s[1..])
    else if s[0] == 0x72 then Done(0x0D, s[1..])
    else if s[0] == 0x75 then ReadHex4(s[1..])
    else Fail
  }

  /** One string unit: an escape, or any unit that need not be escaped. */
  function ReadUnit(s: Text): (r: Read<Unit>)
    requires s != [] && s[0] != 0x22
    ensures r.Done? ==> |r.rest| < |s|
  {
    if s[0] == 0x5C then ReadEscape(s[1..])
    else if s[0] < 0x20 then Fail
    else Done(s[0], s[1..])
  }

  /** The string whose opening quotation mark has been read. */
  function ReadBody(s: Text): (r: Read<Text>)
    ensures r.Done? ==> |r.rest| < |s|
    decreases |s|
  {
    if s == [] then Fail
    else if s[0] == 0x22 then Done([], s[1..])
    else
      match ReadUnit(s)
      case Fail => Fail
      case Done(u, rest) =>
        match ReadBody(rest)
        case Fail => Fail
        case Done(t, rest') => Done([u] + t, rest')
  }

  lemma ReadUnitEscape(u: Unit, rest: Text)
    ensures (Escape(u) + rest)[0] != 0x22
    ensures ReadUnit(Escape(u) + rest) == Done(u, rest)
  {
    var s := Escape(u) + rest;
    if s[0] == 0x5C {
      if s[1] == 0x75 && Escape(u) != [u] {
        var d := Hex4(u);
        assert s[1..] == [0x75] + (d + rest);
        assert s[1..][1..] == d + rest;
        assert (d + rest)[4..] == rest;
        HexRoundTrip(u);
      } else {
        assert s[1..][1..] == rest;
      }
    } else {
      assert s[1..] == rest;
    }
  }

  lemma HexRoundTrip(u: Unit)
    ensures u / 4096 * 4096 + u / 256 % 16 * 256 + u / 16 % 16 * 16 + u % 16 == u
    ensures forall i | 0 <= i < 4 :: HexValue(Hex4(u)[i]) == [u / 4096, u / 256 % 16, u / 16 % 16, u % 16][i]
  {
    assert u / 256 == u / 16 / 16 && u / 4096 == u / 16 / 16 / 16;
  }

  lemma ReadBodyStep(s: Text, u: Unit, tail: Text, t: Text, rest: Text)
    requires s != [] && s[0] != 0x22 && ReadUnit(s) == Done(u, tail)
    requires ReadBody(tail) == Done(t, rest)
    ensures ReadBody(s) == Done([u] + t, rest)
  {
    hide ReadUnit;
  }

  lemma RawUnit(u: Unit, tail: Text)
    requires High(u) || Low(u)
    ensures ReadUnit([u] + tail) == Done(u, tail)
  {
    assert ([u] + tail)[1..] == tail;
  }

  lemma {:induction false} ReadBodyQuoted(t: Text, rest: Text)
    ensures ReadBody(QuoteBody(t) + [0x22] + rest) == Done(t, rest)
    decreases |t|
  {
    hide ReadBody, ReadUnit, Escape;
    if t == [] {
      ReadBodyEnd(rest);
      assert QuoteBody(t) + [0x22] + rest == [0x22] + rest;
    } else if |t| > 1 && High(t[0]) && Low(t[1]) {
      var tail := QuoteBody(t[2..]) + [0x22] + rest;
      ReadBodyQuoted(t[2..], rest);
      RawUnit(t[1], tail);
      ReadBodyStep([t[1]] + tail, t[1], tail, t[2..], rest);
      RawUnit(t[0], [t[1]] + tail);
      ReadBodyStep([t[0]] + ([t[1]] + tail), t[0], [t[1]] + tail, [t[1]] + t[2..], rest);
      assert QuoteBody(t) + [0x22] + rest == [t[0]] + ([t[1]] + tail);
      assert t == [t[0]] + ([t[1]] + t[2..]);
    } else {
      var tail := QuoteBody(t[1..]) + [0x22] + rest;
      ReadBodyQuoted(t[1..], rest);
      ReadUnitEscape(t[0], tail);
      ReadBodyStep(Escape(t[0]) + tail, t[0], tail, t[1..], rest);
      assert QuoteBody(t) + [0x22] + rest == Escape(t[0]) + tail;
      assert t == [t[0]] + t[1..];
    }
  }

  lemma ReadBodyEnd(rest: Text)
    ensures ReadBody([0x22] + rest) == Done([], rest)
  {
    assert ([0x22] + rest)[1..] == rest;
  }

  /* ---- numbers ---- */

  function NumeralLength(s: Text): (n: nat)
    ensures n <= |s|
    ensures forall i | 0 <= i < n :: IsNumeralUnit(s[i])
  {
    if s == [] || !IsNumeralUnit(s[0]) then 0 else 1 + NumeralLength(s[1..])
  }

  /** What may follow a number without becoming part of it. */
  predicate Separated(v: Json, rest: Text) {
    v.Num? && rest != [] ==> !IsNumeralUnit(rest[0])
  }

  lemma {:induction false} NumeralLengthAt(t: Text, rest: Text)
    requires forall u | u in t :: IsNumeralUnit(u)
    requires rest != [] ==> !IsNumeralUnit(rest[0])
    ensures NumeralLength(t + rest) == |t|
  {
    if t == [] {
      assert t + rest == rest;
    } else {
      NumeralLengthAt(t[1..], rest);
      assert (t + rest)[1..] == t[1..] + rest;
    }
  }

  /* ---- values ---- */

  predicate StartsWith(s: Text, p: Text) {
    |p| <= |s| && s[..|p|] == p
  }

  function ReadValue(s: Text): (r: Read<Json>)
    ensures r.Done? ==> |r.rest| < |s|
    decreases |s|, 1
  {
    if s == [] then Fail
    else if StartsWith(s, L("null")) then Done(Null, s[4..])
    else if StartsWith(s, L("true")) then Done(Bool(true), s[4..])
    else if StartsWith(s, L("false")) then Done(Bool(false), s[5..])
    else if s[0] == 0x22 then
      match ReadBody(s[1..])
      case Fail => Fail
      case Done(t, rest) => Done(Str(t), rest)
    else if s[0] == 0x2D || 0x30 <= s[0] <= 0x39 then
      var n := NumeralLength(s);
      Done(Num(s[..n]), s[n..])
    else if s[0] == 0x5B then
      if |s| > 1 && s[1] == 0x5D then Done(Arr([]), s[2..])
      else
        match ReadItems(s[1..])
        case Fail => Fail
        case Done(items, rest) => Done(Arr(items), rest)
    else if s[0] == 0x7B then
      if |s| > 1 && s[1] == 0x7D then Done(Obj(map[]), s[2..])
      else
        match ReadMembers(s[1..])
        case Fail => Fail
        case Done(m, rest) => Done(Obj(m), rest)
    else Fail
  }

  /** One or more items and the closing bracket. */
  function ReadItems(s: Text): (r: Read<seq<Json>>)
    ensures r.Done? ==> |r.rest| < |s|
    decreases |s|, 2
  {
    match ReadValue(s)
    case Fail => Fail
    case Done(v, rest) =>
      if rest == [] then Fail
      else if rest[0] == 0x5D then Done([v], rest[1..])
      else if rest[0] != 0x2C then Fail
      else
        match ReadItems(rest[1..])
        case Fail => Fail
        case Done(vs, rest') => Done([v] + vs, rest')
  }

  /** One or more members and the closing brace. */
  function ReadMembers(s: Text): (r: Read<map<Text, Json>>)
    ensures r.Done? ==> |r.rest| < |s|
    decreases |s|, 2
  {
    if s == [] || s[0] != 0x22 then Fail
    else
      match ReadBody(s[1..])
      case Fail => Fail
      case Done(k, rest) =>
        if rest == [] || rest[0] != 0x3A then Fail
        else
          match ReadValue(rest[1..])
          case Fail => Fail
          case Done(v, rest') =>
            if rest' == [] then Fail
            else if rest'[0] == 0x7D then Done(map[k := v], rest'[1..])
            else if rest'[0] != 0x2C then Fail
            else
              match ReadMembers(rest'[1..])
              case Fail => Fail
              case Done(m, rest'') => Done(map[k := v] + m, rest'')
  }

  /* One step of the reader on a text whose parts are already known to read back. */

  lemma FirstUnits()
    ensures L("null")[0] == 0x6E && L("true")[0] == 0x74 && L("false")[0] == 0x66
  {}

  lemma ReadLiteral(v: Json, t: Text, rest: Text)
    requires (v, t) in {(Null, L("null")), (Bool(true), L("true")), (Bool(false), L("false"))}
    ensures ReadValue(t + rest) == Done(v, rest)
  {
    FirstUnits();
    var s := t + rest;
    assert s[..|t|] == t && s[|t|..] == rest;
  }

  lemma ReadNumeral(n: Numeral, rest: Text)
    requires Separated(Num(n), rest)
    ensures ReadValue(n + rest) == Done(Num(n), rest)
  {
    FirstUnits();
    var s := n + rest;
    NumeralLengthAt(n, rest);
    assert s[..|n|] == n && s[|n|..] == rest;
  }

  lemma ReadQuoted(x: Text, rest: Text)
    ensures ReadValue(Quote(x) + rest) == Done(Str(x), rest)
  {
    FirstUnits();
    var s := Quote(x) + rest;
    assert s[1..] == QuoteBody(x) + [0x22] + rest;
    ReadBodyQuoted(x, rest);
  }

  lemma ReadArray(items: seq<Json>, body: Text, rest: Text)
    requires body != []
    requires if items == [] then body == [0x5D] + rest else body[0] != 0x5D && ReadItems(body) == Done(items, rest)
    ensures ReadValue([0x5B] + body) == Done(Arr(items), rest)
  {
    FirstUnits();
    var s := [0x5B] + body;
    assert s[1..] == body && s[1] == body[0] && s[2..] == body[1..];
    if items == [] { assert body[1..] == rest; }
  }

  lemma ReadObject(m: map<Text, Json>, body: Text, rest: Text)
    requires body != []
    requires if m == map[] then body == [0x7D] + rest else body[0] != 0x7D && ReadMembers(body) == Done(m, rest)
    ensures ReadValue([0x7B] + body) == Done(Obj(m), rest)
  {
    FirstUnits();
    var s := [0x7B] + body;
    assert s[1..] == body && s[1] == body[0] && s[2..] == body[1..];
    if m == map[] { assert body[1..] == rest; }
  }

  lemma ReadItemsStep(t: Text, v: Json, vs: seq<Json>, tail: Text, rest: Text)
    requires vs == [] ==> ReadValue(t + ([0x5D] + rest)) == Done(v, [0x5D] + rest)
    requires vs != [] ==> ReadValue(t + ([0x2C] + tail)) == Done(v, [0x2C] + tail) && ReadItems(tail) == Done(vs, rest)
    ensures ReadItems(t + (if vs == [] then [0x5D] + rest else [0x2C] + tail)) == Done([v] + vs, rest)
  {
    assert ([0x5D] + rest)[1..] == rest && ([0x2C] + tail)[1..] == tail;
    assert [v] + [] == [v];
  }

  lemma ReadMembersStep(t: Text, k: Text, v: Json, m: map<Text, Json>, last: bool, tail: Text, rest: Text)
    requires MemberReads(t, k, v, if last then [0x7D] + rest else [0x2C] + tail)
    requires if last then m == map[] else ReadMembers(tail) == Done(m, rest)
    ensures ReadMembers(t + (if last then [0x7D] + rest else [0x2C] + tail)) == Done(map[k := v] + m, rest)
  {
    assert ([0x7D] + rest)[1..] == rest && ([0x2C] + tail)[1..] == tail;
    assert map[k := v] + map[] == map[k := v];
  }

  /** The text t is one member, and what follows it is left over. */
  ghost predicate MemberReads(t: Text, k: Text, v: Json, rest: Text) {
    var s := t + rest;
    s != [] && s[0] == 0x22 && ReadBody(s[1..]).Done? &&
    var r := ReadBody(s[1..]);
    r.value == k && r.rest != [] && r.rest[0] == 0x3A && ReadValue(r.rest[1..]) == Done(v, rest)
  }

  lemma Regroup(a: Text, b: Text, c: Text, d: Text)
    ensures a + b + c + d == a + (b + (c + d))
  {}

  lemma MemberStep(t: Text, k: Text, v: Json, rest: Text)
    requires ReadValue(t + rest) == Done(v, rest)
    ensures MemberReads(Quote(k) + [0x3A] + t, k, v, rest)
  {
    var after := [0x3A] + (t + rest);
    var s := Quote(k) + [0x3A] + t + rest;
    assert s[0] == 0x22 && s[1..] == QuoteBody(k) + [0x22] + after by {
      Regroup(Quote(k), [0x3A], t, rest);
      Regroup([0x22], QuoteBody(k), [0x22], after);
    }
    ReadBodyQuoted(k, after);
    assert after[1..] == t + rest;
  }

  /* Printed text of a list, split after its first element. */

  lemma ItemsSplit(items: seq<Json>, rest: Text)
    requires items != []
    ensures ItemsText(items) != [] && ItemsText(items)[0] == StableJson(items[0])[0]
    ensures ItemsText(items) + ([0x5D] + rest) == StableJson(items[0]) +
      (if |items| == 1 then [0x5D] + rest else [0x2C] + (ItemsText(items[1..]) + ([0x5D] + rest)))
  {
    if |items| > 1 { Regroup(StableJson(items[0]), [0x2C], ItemsText(items[1..]), [0x5D] + rest); }
  }

  lemma MembersSplit(v: Json, ks: seq<Text>, rest: Text)
    requires v.Obj? && ks != [] && forall k | k in ks :: k in v.members
    ensures MembersText(v, ks) != [] && MembersText(v, ks)[0] == 0x22
    ensures MembersText(v, ks) + ([0x7D] + rest) == (Quote(ks[0]) + [0x3A] + StableJson(v.members[ks[0]])) +
      (if |ks| == 1 then [0x7D] + rest else [0x2C] + (MembersText(v, ks[1..]) + ([0x7D] + rest)))
  {
    if |ks| > 1 { Regroup(MemberText(v, ks[0]), [0x2C], MembersText(v, ks[1..]), [0x7D] + rest); }
  }

  lemma StartsLikeValue(v: Json)
    ensures StableJson(v)[0] !in {0x5D, 0x2C, 0x7D}
  {
    FirstUnits();
  }

  /** The reader undoes the printer, with any following text (a number must end where it ends). */
  lemma {:induction false} ReadsBack(v: Json, rest: Text)
    requires Separated(v, rest)
    ensures ReadValue(StableJson(v) + rest) == Done(v, rest)
    decreases v, 1, 0
  {
    hide ReadValue, ReadItems, ReadMembers, Ascending;
    match v
    case Null => ReadLiteral(v, L("null"), rest);
    case Bool(b) => ReadLiteral(v, if b then L("true") else L("false"), rest);
    case Num(n) => ReadNumeral(n, rest);
    case Str(x) => ReadQuoted(x, rest);
    case Arr(items) =>
      var body := ItemsText(items) + ([0x5D] + rest);
      assert StableJson(v) + rest == [0x5B] + body;
      if items == [] {
        assert body == [0x5D] + rest;
      } else {
        ItemsReadBack(items, rest);
      }
      ReadArray(items, body, rest);
    case Obj(m) =>
      var ks := Ascending(m.Keys);
      var body := MembersText(v, ks) + ([0x7D] + rest);
      assert StableJson(v) + rest == [0x7B] + body;
      if ks == [] {
        assert |m.Keys| == 0;
        assert m == map[];
        assert body == [0x7D] + rest;
      } else {
        MembersReadBack(v, ks, rest);
        assert Pick(m, ks) == m;
        assert m != map[] by { assert ks[0] in m; }
      }
      ReadObject(m, body, rest);
  }

  lemma {:induction false} ItemsReadBack(items: seq<Json>, rest: Text)
    requires items != []
    ensures ItemsText(items) != [] && ItemsText(items)[0] != 0x5D
    ensures ReadItems(ItemsText(items) + ([0x5D] + rest)) == Done(items, rest)
    decreases items, 0, 0
  {
    var last := |items| == 1;
    var tail := if last then [] else ItemsText(items[1..]) + ([0x5D] + rest);
    StartsLikeValue(items[0]);
    ItemsSplit(items, rest);
    ReadsBack(items[0], if last then [0x5D] + rest else [0x2C] + tail);
    if !last { ItemsReadBack(items[1..], rest); }
    ReadItemsStep(StableJson(items[0]), items[0], items[1..], tail, rest);
    assert items == [items[0]] + items[1..];
  }

  lemma {:induction false} MembersReadBack(v: Json, ks: seq<Text>, rest: Text)
    requires v.Obj? && ks != [] && forall k | k in ks :: k in v.members
    ensures MembersText(v, ks) != [] && MembersText(v, ks)[0] == 0x22
    ensures ReadMembers(MembersText(v, ks) + ([0x7D] + rest)) == Done(Pick(v.members, ks), rest)
    decreases v, 0, |ks|
  {
    var k := ks[0];
    var x := v.members[k];
    var last := |ks| == 1;
    var tail := if last then [] else MembersText(v, ks[1..]) + ([0x7D] + rest);
    var after := if last then [0x7D] + rest else [0x2C] + tail;
    MembersSplit(v, ks, rest);
    ReadsBack(x, after);
    MemberStep(StableJson(x), k, x, after);
    if !last { MembersReadBack(v, ks[1..], rest); }
    ReadMembersStep(Quote(k) + [0x3A] + StableJson(x), k, x, Pick(v.members, ks[1..]), last, tail, rest);
    PickSplit(v.members, ks);
  }

  function Pick(m: map<Text, Json>, ks: seq<Text>): map<Text, Json>
    requires forall k | k in ks :: k in m
  {
    map k | k in ks :: m[k]
  }

  lemma PickSplit(m: map<Text, Json>, ks: seq<Text>)
    requires ks != [] && forall k | k in ks :: k in m
    ensures Pick(m, ks) == map[ks[0] := m[ks[0]]] + Pick(m, ks[1..])
  {
    assert ks == [ks[0]] + ks[1..];
  }

  /** Two values print the same text exactly when they are equal. */
  lemma StableJsonInjective(v: Json, w: Json)
    ensures StableJson(v) == StableJson(w) <==> v == w
  {
    ReadsBack(v, []);
    ReadsBack(w, []);
    assert StableJson(v) + [] == StableJson(v) && StableJson(w) + [] == StableJson(w);
  }
}
