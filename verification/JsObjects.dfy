/**
JavaScript objects keep their keys in some order. `stableJson` sorts them, so its text depends
only on the JSON value, and it is well-formed UTF-16, so encoding it as UTF-8 loses nothing.
*/
module JsObjects {
  import opened Text
  import opened Json
  import JsonReader

  datatype Js =
    | Leaf(v: Json)
    | JsArray(items: seq<Js>)
    | JsObject(members: seq<(Text, Js)>)

  function Keys(members: seq<(Text, Js)>): seq<Text> {
    seq(|members|, i requires 0 <= i < |members| => members[i].0)
  }

  /** Keys of an object are distinct; leaves are not containers. */
  predicate Valid(x: Js) {
    match x
    case Leaf(v) => !v.Arr? && !v.Obj?
    case JsArray(items) => forall i | 0 <= i < |items| :: Valid(items[i])
    case JsObject(members) => Distinct(Keys(members)) && forall i | 0 <= i < |members| :: Valid(members[i].1)
  }

  function IndexOf(ks: seq<Text>, k: Text): (i: nat)
    requires k in ks
    ensures i < |ks| && ks[i] == k
  {
    if ks[0] == k then 0 else 1 + IndexOf(ks[1..], k)
  }

  /** The JSON value: the object without the order of its keys. */
  function Value(x: Js): Json
    decreases x
  {
    match x
    case Leaf(v) => v
    case JsArray(items) => Arr(seq(|items|, i requires 0 <= i < |items| => Value(items[i])))
    case JsObject(members) =>
      Obj(map k | k in Keys(members) :: Value(members[IndexOf(Keys(members), k)].1))
  }

  lemma InsertedAbove(k: Text, before: seq<Text>, after: seq<Text>, least: Text)
    requires multiset(after) == multiset{k} + multiset(before)
    requires Leq(least, k) && forall i | 0 <= i < |before| :: Leq(least, before[i])
    ensures forall i | 0 <= i < |after| :: Leq(least, after[i])
  {
    hide Leq;
    forall i | 0 <= i < |after| ensures Leq(least, after[i]) {
      assert after[i] in multiset(after);
      if after[i] != k { assert after[i] in before; }
    }
  }

  function Insert(k: Text, ks: seq<Text>): (r: seq<Text>)
    requires IsSorted(ks)
    ensures IsSorted(r) && multiset(r) == multiset{k} + multiset(ks)
  {
    if ks == [] then [k]
    else if Leq(k, ks[0]) then
      assert forall j | j in ks :: Leq(k, j) by {
        forall j | j in ks ensures Leq(k, j) { LeqTotal(j, j); LeqTransitive(k, ks[0], j); }
      }
      [k] + ks
    else
      LeqTotal(k, ks[0]);
      var tail := Insert(k, ks[1..]);
      assert ks == [ks[0]] + ks[1..];
      InsertedAbove(k, ks[1..], tail, ks[0]);
      [ks[0]] + tail
  }

  /** `Array.prototype.sort` without a comparator. */
  function Sort(ks: seq<Text>): (r: seq<Text>)
    ensures IsSorted(r) && multiset(r) == multiset(ks)
  {
    if ks == [] then []
    else
      assert ks == [ks[0]] + ks[1..];
      Insert(ks[0], Sort(ks[1..]))
  }

  lemma SameElements(a: seq<Text>, b: seq<Text>)
    requires multiset(a) == multiset(b)
    ensures forall k :: k in a <==> k in b
    ensures Distinct(a) ==> Distinct(b)
  {
    forall k ensures k in a <==> k in b { assert k in a <==> k in multiset(a); assert k in b <==> k in multiset(b); }
    if Distinct(a) {
      forall i, j | 0 <= i < j < |b| ensures b[i] != b[j] {
        if b[i] == b[j] {
          assert b == b[..i] + [b[i]] + b[i + 1..j] + [b[j]] + b[j + 1..];
          assert multiset(b)[b[i]] >= 2;
          DistinctOnce(a, b[i]);
        }
      }
    }
  }

  lemma {:induction false} DistinctOnce(a: seq<Text>, k: Text)
    requires Distinct(a)
    ensures multiset(a)[k] <= 1
  {
    if a != [] {
      assert a == [a[0]] + a[1..];
      DistinctOnce(a[1..], k);
      if a[0] == k { assert k !in a[1..]; }
    }
  }

  /** The source's function on an object with ordered keys. */
  function StableJs(x: Js): Text
    decreases x, 1, 0
  {
    match x
    case Leaf(v) => StableJson(v)
    case JsArray(items) => [0x5B] + ItemsJs(items) + [0x5D]
    case JsObject(members) =>
      var ks := Sort(Keys(members));
      SameElements(Keys(members), ks);
      [0x7B] + MembersJs(x, ks) + [0x7D]
  }

  function ItemsJs(items: seq<Js>): Text
    decreases items, 0, 0
  {
    if items == [] then []
    else if |items| == 1 then StableJs(items[0])
    else StableJs(items[0]) + [0x2C] + ItemsJs(items[1..])
  }

  function MembersJs(x: Js, ks: seq<Text>): Text
    requires x.JsObject? && forall k | k in ks :: k in Keys(x.members)
    decreases x, 0, |ks|
  {
    if ks == [] then []
    else
      var one := Quote(ks[0]) + [0x3A] + StableJs(x.members[IndexOf(Keys(x.members), ks[0])].1);
      if |ks| == 1 then one else one + [0x2C] + MembersJs(x, ks[1..])
  }

  /** Sorting the keys makes the text a function of the JSON value alone. */
  lemma {:induction false} PrintsValue(x: Js)
    requires Valid(x)
    ensures StableJs(x) == StableJson(Value(x))
    decreases x, 1, 0
  {
    hide Ascending, ItemsText, MembersText, ItemsJs, MembersJs, Distinct, Sort;
    match x
    case Leaf(v) =>
    case JsArray(items) => ItemsPrintValues(items);
    case JsObject(members) =>
      var ks := Keys(members);
      SameElements(ks, Sort(ks));
      SortedIsAscending(Sort(ks));
      assert (set k | k in Sort(ks)) == Value(x).members.Keys;
      MembersPrintValues(x, Sort(ks));
  }

  lemma {:induction false} ItemsPrintValues(items: seq<Js>)
    requires forall i | 0 <= i < |items| :: Valid(items[i])
    ensures ItemsJs(items) == ItemsText(seq(|items|, i requires 0 <= i < |items| => Value(items[i])))
    decreases items, 0, 0
  {
    hide StableJson, StableJs, Value, Valid;
    var vs := seq(|items|, i requires 0 <= i < |items| => Value(items[i]));
    if items != [] {
      PrintsValue(items[0]);
      var tail := seq(|items| - 1, i requires 0 <= i < |items| - 1 => Value(items[1..][i]));
      assert vs[1..] == tail;
      ItemsPrintValues(items[1..]);
    }
  }

  lemma {:induction false} MembersPrintValues(x: Js, ks: seq<Text>)
    requires Valid(x) && x.JsObject? && forall k | k in ks :: k in Keys(x.members)
    ensures MembersJs(x, ks) == MembersText(Value(x), ks)
    decreases x, 0, |ks|
  {
    if ks != [] {
      PrintsValue(x.members[IndexOf(Keys(x.members), ks[0])].1);
      MembersPrintValues(x, ks[1..]);
    }
  }

  /** Canonical JSON is unambiguous: same text exactly when equal up to the order of object keys. */
  lemma Unambiguous(x: Js, y: Js)
    requires Valid(x) && Valid(y)
    ensures StableJs(x) == StableJs(y) <==> Value(x) == Value(y)
  {
    PrintsValue(x);
    PrintsValue(y);
    JsonReader.StableJsonInjective(Value(x), Value(y));
  }

  /* ---- well-formed UTF-16 ---- */

  /** Every surrogate is part of a pair. */
  predicate WellFormed(t: Text) {
    t == [] ||
    (if High(t[0]) then |t| > 1 && Low(t[1]) && WellFormed(t[2..]) else !Low(t[0]) && WellFormed(t[1..]))
  }

  lemma {:induction false} WellFormedConcat(a: Text, b: Text)
    requires WellFormed(a) && WellFormed(b)
    ensures WellFormed(a + b)
    decreases |a|
  {
    if a == [] {
      assert a + b == b;
    } else if High(a[0]) {
      WellFormedConcat(a[2..], b);
      assert (a + b)[2..] == a[2..] + b;
    } else {
      WellFormedConcat(a[1..], b);
      assert (a + b)[1..] == a[1..] + b;
    }
  }

  lemma {:induction false} PlainWellFormed(t: Text)
    requires forall u | u in t :: u < 0xD800
    ensures WellFormed(t)
  {
    if t != [] {
      assert t[0] in t && forall u | u in t[1..] :: u in t;
      PlainWellFormed(t[1..]);
    }
  }

  lemma {:induction false} QuoteBodyWellFormed(t: Text)
    ensures WellFormed(QuoteBody(t))
    decreases |t|
  {
    if t == [] {
    } else if |t| > 1 && High(t[0]) && Low(t[1]) {
      QuoteBodyWellFormed(t[2..]);
      assert QuoteBody(t)[2..] == QuoteBody(t[2..]);
    } else {
      QuoteBodyWellFormed(t[1..]);
      PlainOrSelf(t[0]);
      WellFormedConcat(Escape(t[0]), QuoteBody(t[1..]));
    }
  }

  lemma PlainOrSelf(u: Unit)
    ensures WellFormed(Escape(u))
  {
    if Escape(u) == [u] {
      assert WellFormed([]);
    } else {
      PlainWellFormed(Escape(u));
    }
  }

  lemma QuoteWellFormed(t: Text)
    ensures WellFormed(Quote(t))
  {
    QuoteBodyWellFormed(t);
    PlainWellFormed([0x22]);
    WellFormedConcat([0x22], QuoteBody(t));
    WellFormedConcat([0x22] + QuoteBody(t), [0x22]);
  }

  lemma Bracketed(open: Unit, t: Text, close: Unit)
    requires open < 0xD800 && close < 0xD800 && WellFormed(t)
    ensures WellFormed([open] + t + [close])
  {
    PlainWellFormed([open]);
    PlainWellFormed([close]);
    WellFormedConcat([open], t);
    WellFormedConcat([open] + t, [close]);
  }

  lemma Joined(a: Text, separator: Unit, b: Text)
    requires separator < 0xD800 && WellFormed(a) && WellFormed(b)
    ensures WellFormed(a + [separator] + b)
  {
    PlainWellFormed([separator]);
    WellFormedConcat(a, [separator]);
    WellFormedConcat(a + [separator], b);
  }

  /** Even for strings with lone surrogates, the canonical text has none. */
  lemma {:induction false} StableJsonWellFormed(v: Json)
    ensures WellFormed(StableJson(v))
    decreases v, 1, 0
  {
    match v
    case Null => PlainWellFormed(L("null"));
    case Bool(b) => PlainWellFormed(if b then L("true") else L("false"));
    case Num(n) => PlainWellFormed(n);
    case Str(s) => QuoteWellFormed(s);
    case Arr(items) => ItemsWellFormed(items); Bracketed(0x5B, ItemsText(items), 0x5D);
    case Obj(m) =>
      var ks := Ascending(m.Keys);
      MembersWellFormed(v, ks);
      Bracketed(0x7B, MembersText(v, ks), 0x7D);
  }

  lemma {:induction false} ItemsWellFormed(items: seq<Json>)
    ensures WellFormed(ItemsText(items))
    decreases items, 0, 0
  {
    if items != [] {
      StableJsonWellFormed(items[0]);
      ItemsWellFormed(items[1..]);
      if |items| > 1 { Joined(StableJson(items[0]), 0x2C, ItemsText(items[1..])); }
    }
  }

  lemma {:induction false} MembersWellFormed(v: Json, ks: seq<Text>)
    requires v.Obj? && forall k | k in ks :: k in v.members
    ensures WellFormed(MembersText(v, ks))
    decreases v, 0, |ks|
  {
    if ks != [] {
      QuoteWellFormed(ks[0]);
      StableJsonWellFormed(v.members[ks[0]]);
      Joined(Quote(ks[0]), 0x3A, StableJson(v.members[ks[0]]));
      MembersWellFormed(v, ks[1..]);
      if |ks| > 1 { Joined(MemberText(v, ks[0]), 0x2C, MembersText(v, ks[1..])); }
    }
  }
}
