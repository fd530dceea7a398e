/**
JavaScript strings as sequences of UTF-16 code units, with the order that
`Array.prototype.sort` uses when it is given no comparator.
*/
module Text {
  type Unit = u: int | 0 <= u < 0x1_0000
  type Text = seq<Unit>

  /** A source literal as code units. */
  function L(s: string): (t: Text)
    ensures |t| == |s|
  {
    seq(|s|, i requires 0 <= i < |s| => if s[i] as int < 0x1_0000 then s[i] as int else 0xFFFD)
  }

  /** First and last unit of a text and the one at a third, by which fixed names are told apart. */
  function Fingerprint(t: Text): int
    requires t != []
  {
    var first: int, last: int, inner: int := t[0], t[|t| - 1], t[|t| / 3];
    (first * 128 + last) * 128 + inner
  }

  /** The `a || b` of the source on strings: the absent and the empty string are both falsy. */
  function Or(a: Text, b: Text): Text {
    if a == [] then b else a
  }

  /** Order of two texts by code units, shorter prefix first. */
  predicate Leq(a: Text, b: Text) {
    a == [] || (b != [] && (a[0] < b[0] || (a[0] == b[0] && Leq(a[1..], b[1..]))))
  }

  /** Both have an element at i, and agree before it. */
  predicate AgreeTo<T(==)>(a: seq<T>, b: seq<T>, i: nat) {
    i < |a| && i < |b| && a[..i] == b[..i]
  }

  lemma AgreeStep<T>(a: seq<T>, b: seq<T>, i: nat)
    requires a != [] && b != [] && i > 0
    ensures AgreeTo(a, b, i) <==> a[0] == b[0] && AgreeTo(a[1..], b[1..], i - 1)
  {
    if i < |a| && i < |b| {
      assert a[..i] == [a[0]] + a[1..][..i - 1] && b[..i] == [b[0]] + b[1..][..i - 1];
    }
  }

  lemma PrefixStep<T>(a: seq<T>, b: seq<T>)
    requires a != [] && b != []
    ensures a <= b <==> a[0] == b[0] && a[1..] <= b[1..]
  {
    assert a == [a[0]] + a[1..] && b == [b[0]] + b[1..];
  }

  /** What the order means: a prefix comes first, else the first unit that differs decides. */
  lemma {:induction false} LeqExactly(a: Text, b: Text)
    ensures Leq(a, b) <==> a <= b || exists i: nat :: AgreeTo(a, b, i) && a[i] < b[i]
  {
    if a != [] && b != [] {
      LeqExactly(a[1..], b[1..]);
      PrefixStep(a, b);
      assert AgreeTo(a, b, 0);
      forall i: nat | i > 0 ensures AgreeTo(a, b, i) <==> a[0] == b[0] && AgreeTo(a[1..], b[1..], i - 1) {
        AgreeStep(a, b, i);
      }
      if i: nat :| AgreeTo(a[1..], b[1..], i) && a[1..][i] < b[1..][i] && a[0] == b[0] { assert AgreeTo(a, b, i + 1); }
    }
  }

  lemma LeqTotal(a: Text, b: Text)
    ensures Leq(a, b) || Leq(b, a)
  {}

  lemma LeqAntisymmetric(a: Text, b: Text)
    requires Leq(a, b) && Leq(b, a)
    ensures a == b
  {
    if a != [] {
      LeqAntisymmetric(a[1..], b[1..]);
      assert a == [a[0]] + a[1..] && b == [b[0]] + b[1..];
    }
  }

  lemma LeqTransitive(a: Text, b: Text, c: Text)
    requires Leq(a, b) && Leq(b, c)
    ensures Leq(a, c)
  {}

  predicate IsLeast(k: Text, s: set<Text>) {
    k in s && forall j | j in s :: Leq(k, j)
  }

  lemma LeastExists(s: set<Text>)
    requires s != {}
    ensures exists k :: IsLeast(k, s)
  {
    var k :| k in s;
    LeqTotal(k, k);
    if s == {k} {
      assert IsLeast(k, s);
    } else {
      LeastExists(s - {k});
      var m :| IsLeast(m, s - {k});
      LeqTotal(k, m);
      if Leq(m, k) {
        assert IsLeast(m, s);
      } else {
        forall j | j in s ensures Leq(k, j) {
          if j != k { LeqTransitive(k, m, j); }
        }
        assert IsLeast(k, s);
      }
    }
  }

  /** The elements of a set in ascending order. */
  function Ascending(s: set<Text>): (r: seq<Text>)
    ensures |r| == |s|
    ensures forall k :: k in r <==> k in s
    decreases s
  {
    if s == {} then []
    else
      LeastExists(s);
      assert forall a, b | IsLeast(a, s) && IsLeast(b, s) :: a == b by {
        forall a, b | IsLeast(a, s) && IsLeast(b, s) ensures a == b { LeqAntisymmetric(a, b); }
      }
      var k :| k in s && IsLeast(k, s);
      [k] + Ascending(s - {k})
  }

  ghost predicate IsSorted(ks: seq<Text>) {
    forall i, j | 0 <= i < j < |ks| :: Leq(ks[i], ks[j])
  }

  predicate Distinct<T(==)>(ks: seq<T>) {
    forall i, j | 0 <= i < j < |ks| :: ks[i] != ks[j]
  }

  lemma TailSet(ks: seq<Text>)
    requires ks != [] && Distinct(ks)
    ensures (set k | k in ks[1..]) == (set k | k in ks) - {ks[0]}
  {
    assert ks == [ks[0]] + ks[1..];
  }

  lemma FirstIsLeast(ks: seq<Text>)
    requires ks != [] && IsSorted(ks)
    ensures IsLeast(ks[0], set k | k in ks)
  {
    hide Leq;
    LeqTotal(ks[0], ks[0]);
  }

  /** Whatever order the keys come in and however they are sorted, the sorted list is the same. */
  lemma {:induction false} SortedIsAscending(ks: seq<Text>)
    requires IsSorted(ks) && Distinct(ks)
    ensures ks == Ascending(set k | k in ks)
  {
    hide Leq;
    var s := set k | k in ks;
    if ks != [] {
      FirstIsLeast(ks);
      TailSet(ks);
      SortedIsAscending(ks[1..]);
      AscendingStep(s, ks[0]);
      assert ks == [ks[0]] + ks[1..];
    } else {
      assert s == {};
    }
  }

  lemma {:induction false} AscendingSorted(s: set<Text>)
    ensures IsSorted(Ascending(s)) && Distinct(Ascending(s))
    decreases s
  {
    hide Leq;
    if s != {} {
      LeastExists(s);
      var k :| IsLeast(k, s);
      AscendingStep(s, k);
      AscendingSorted(s - {k});
    }
  }

  lemma AscendingStep(s: set<Text>, k: Text)
    requires IsLeast(k, s)
    ensures Ascending(s) == [k] + Ascending(s - {k})
  {
    var j := Ascending(s)[0];
    assert IsLeast(j, s) && k in s && j in s;
    assert Leq(j, k) && Leq(k, j);
    LeqAntisymmetric(j, k);
  }

  /** Decimal digits of a natural number, as every integer of the model is printed. */
  function Digits(n: nat): (t: Text)
    ensures t != [] && forall i | 0 <= i < |t| :: 0x30 <= t[i] <= 0x39
  {
    if n < 10 then [0x30 + n] else Digits(n / 10) + [0x30 + n % 10]
  }

  lemma {:induction false} DigitsInjective(m: nat, n: nat)
    requires Digits(m) == Digits(n)
    ensures m == n
  {
    var a, b := Digits(m), Digits(n);
    assert a[|a| - 1] == b[|b| - 1];
    if m < 10 || n < 10 {
      assert |a| == 1 && |b| == 1;
    } else {
      assert a[..|a| - 1] == Digits(m / 10) && b[..|b| - 1] == Digits(n / 10);
      DigitsInjective(m / 10, n / 10);
    }
  }

  /** The number a list of decimal digits stands for. */
  function Decimal(t: Text): int {
    if t == [] then 0
    else
      var last: int := t[|t| - 1];
      Decimal(t[..|t| - 1]) * 10 + (last - 0x30)
  }

  /** The digits of a number are its decimal numeral without leading zeros. */
  lemma {:induction false} DigitsExactly(n: nat)
    ensures Decimal(Digits(n)) == n && (n > 0 ==> Digits(n)[0] != 0x30) && (n == 0 ==> Digits(n) == [0x30])
  {
    var t := Digits(n);
    if n < 10 {
      assert t[..0] == [];
    } else {
      assert t[..|t| - 1] == Digits(n / 10);
      DigitsExactly(n / 10);
    }
  }

  /** The units of a source literal are its characters. */
  lemma LiteralUnits(s: string)
    requires forall i | 0 <= i < |s| :: s[i] as int < 0x1_0000
    ensures |L(s)| == |s| && forall i | 0 <= i < |s| :: L(s)[i] == s[i] as int
  {}
}
