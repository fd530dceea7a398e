/**
Bounded most-recently-used ledgers: the record that matches is spliced out, the new one is
unshifted, and the list is cut at its capacity.
*/
module Ledger {
  const CAPACITY := 100

  /** `findIndex`: the first position that matches, or the length. */
  function FindIndex<T>(xs: seq<T>, r: T, same: (T, T) -> bool): (i: nat)
    ensures i <= |xs|
    ensures i < |xs| ==> same(xs[i], r)
    ensures forall j | 0 <= j < i :: !same(xs[j], r)
  {
    if xs == [] || same(xs[0], r) then 0 else 1 + FindIndex(xs[1..], r, same)
  }

  function Clip<T>(xs: seq<T>): seq<T> {
    if |xs| <= CAPACITY then xs else xs[..CAPACITY]
  }

  function Without<T>(xs: seq<T>, r: T, same: (T, T) -> bool): seq<T> {
    var i := FindIndex(xs, r, same);
    if i < |xs| then xs[..i] + xs[i + 1..] else xs
  }

  function Touch<T>(xs: seq<T>, r: T, same: (T, T) -> bool): seq<T> {
    Clip([r] + Without(xs, r, same))
  }

  /** The ledger after a history of uses, oldest first. */
  function After<T>(history: seq<T>, same: (T, T) -> bool): seq<T> {
    if history == [] then []
    else Touch(After(history[..|history| - 1], same), history[|history| - 1], same)
  }

  /** Reference: walk back from the newest use and keep a record when its key was not met yet. */
  ghost function MostRecent<T, K>(history: seq<T>, key: T -> K, seen: iset<K>): seq<T> {
    if history == [] then []
    else
      var r := history[|history| - 1];
      var older := history[..|history| - 1];
      if key(r) in seen then MostRecent(older, key, seen)
      else [r] + MostRecent(older, key, seen + iset{key(r)})
  }

  /** On the records of a history, two match exactly when their keys are equal. */
  ghost predicate MatchesByKey<T, K>(history: seq<T>, same: (T, T) -> bool, key: T -> K) {
    forall x, y | x in history && y in history :: same(x, y) <==> key(x) == key(y)
  }

  ghost predicate KeptOnce<T, K>(m: seq<T>, history: seq<T>, key: T -> K, seen: iset<K>) {
    && (forall i | 0 <= i < |m| :: m[i] in history && key(m[i]) !in seen)
    && (forall i, j | 0 <= i < j < |m| :: key(m[i]) != key(m[j]))
  }

  /** The reference keeps records of the history, one per key. */
  lemma {:induction false} MostRecentDistinct<T, K>(history: seq<T>, key: T -> K, seen: iset<K>)
    ensures KeptOnce(MostRecent(history, key, seen), history, key, seen)
  {
    if history != [] {
      var r := history[|history| - 1];
      var older := history[..|history| - 1];
      var deeper := if key(r) in seen then seen else seen + iset{key(r)};
      MostRecentDistinct(older, key, deeper);
      var m, rest := MostRecent(history, key, seen), MostRecent(older, key, deeper);
      assert history == older + [r];
      assert KeptOnce(rest, history, key, deeper);
      assert key(r) !in seen ==> m == [r] + rest;
    }
  }

  /** The reference drops no key, and keeps the newest record of each. */
  lemma {:induction false} MostRecentCovers<T, K>(history: seq<T>, key: T -> K, seen: iset<K>, i: nat)
    requires i < |history| && key(history[i]) !in seen
    requires forall j | i < j < |history| :: key(history[j]) != key(history[i])
    ensures history[i] in MostRecent(history, key, seen)
  {
    var n := |history| - 1;
    if i < n {
      MostRecentCovers(history[..n], key, if key(history[n]) in seen then seen else seen + iset{key(history[n])}, i);
    }
  }

  lemma FindFirst<T>(x: T, m: seq<T>, r: T, same: (T, T) -> bool)
    ensures FindIndex([x] + m, r, same) == if same(x, r) then 0 else 1 + FindIndex(m, r, same)
  {
    assert ([x] + m)[1..] == m;
  }

  lemma WithoutFirst<T>(x: T, m: seq<T>, r: T, same: (T, T) -> bool)
    ensures Without([x] + m, r, same) == (if same(x, r) then m else [x] + Without(m, r, same))
  {
    var xs := [x] + m;
    FindFirst(x, m, r, same);
    hide FindIndex;
    var i := FindIndex(xs, r, same);
    if same(x, r) {
      assert xs[..0] + xs[1..] == m;
    } else if i < |xs| {
      assert xs[..i] == [x] + m[..i - 1] && xs[i + 1..] == m[i..];
      assert xs[..i] + xs[i + 1..] == [x] + (m[..i - 1] + m[i..]);
    }
  }

  /** Marking a key as seen removes the one record that has it. */
  lemma {:induction false} SeenRemoves<T, K>(history: seq<T>, same: (T, T) -> bool, key: T -> K, seen: iset<K>, r: T)
    requires forall x | x in history :: same(x, r) <==> key(x) == key(r)
    ensures MostRecent(history, key, seen + iset{key(r)}) == Without(MostRecent(history, key, seen), r, same)
  {
    hide Without;
    if history == [] {
      WithoutNone(r, same);
    } else {
      var x := history[|history| - 1];
      var older := history[..|history| - 1];
      assert history == older + [x];
      if key(x) in seen {
        SeenRemoves(older, same, key, seen, r);
      } else {
        var more := seen + iset{key(x)};
        WithoutFirst(x, MostRecent(older, key, more), r, same);
        if key(x) == key(r) {
          assert seen + iset{key(r)} == more;
        } else {
          SeenRemoves(older, same, key, more, r);
          assert more + iset{key(r)} == seen + iset{key(r)} + iset{key(x)};
        }
      }
    }
  }

  lemma WithoutNone<T>(r: T, same: (T, T) -> bool)
    ensures Without([], r, same) == []
  {}

  /** Cutting before a use does not matter to what is kept after it. */
  lemma ClipThenTouch<T>(xs: seq<T>, r: T, same: (T, T) -> bool)
    ensures Touch(Clip(xs), r, same) == Clip([r] + Without(xs, r, same))
  {
    hide FindIndex;
    if |xs| > CAPACITY {
      var n := CAPACITY;
      var c := xs[..n];
      PrefixFind(xs, n, r, same);
      var i := FindIndex(xs, r, same);
      var kept, all := Without(c, r, same), Without(xs, r, same);
      if i < n {
        assert kept == c[..i] + c[i + 1..] && all == xs[..i] + xs[i + 1..];
        assert kept == all[..n - 1];
        assert ([r] + all)[..n] == [r] + all[..n - 1];
      } else {
        assert kept == c && all[..n] == c by {
          if i < |xs| { assert all == xs[..i] + xs[i + 1..]; }
        }
        assert ([r] + all)[..n] == [r] + all[..n - 1] == ([r] + c)[..n];
      }
    }
  }

  lemma {:induction false} PrefixFind<T>(xs: seq<T>, n: nat, r: T, same: (T, T) -> bool)
    requires n <= |xs|
    ensures FindIndex(xs[..n], r, same) == (if FindIndex(xs, r, same) < n then FindIndex(xs, r, same) else n)
  {
    if n > 0 && !same(xs[0], r) {
      assert xs[..n][1..] == xs[1..][..n - 1];
      PrefixFind(xs[1..], n - 1, r, same);
    }
  }

  /** After any history, the ledger is the 100 most recently used distinct keys, newest first. */
  lemma {:induction false} LedgerIsMostRecent<T, K>(history: seq<T>, same: (T, T) -> bool, key: T -> K)
    requires MatchesByKey(history, same, key)
    ensures After(history, same) == Clip(MostRecent(history, key, iset{}))
  {
    if history != [] {
      var r := history[|history| - 1];
      var older := history[..|history| - 1];
      assert history == older + [r];
      LedgerIsMostRecent(older, same, key);
      SeenRemoves(older, same, key, iset{}, r);
      ClipThenTouch(MostRecent(older, key, iset{}), r, same);
      assert iset{} + iset{key(r)} == iset{key(r)};
    }
  }

  ghost predicate Met<T, K>(history: seq<T>, key: T -> K, k: K) {
    exists i :: 0 <= i < |history| && key(history[i]) == k
  }

  /** Every key of the history that is not seen yet has a record in the reference. */
  lemma {:induction false} EveryKeyKept<T, K>(history: seq<T>, key: T -> K, seen: iset<K>, k: K)
    ensures Met(MostRecent(history, key, seen), key, k) <==> k !in seen && Met(history, key, k)
  {
    if history != [] {
      var r, older := history[|history| - 1], history[..|history| - 1];
      var deeper := if key(r) in seen then seen else seen + iset{key(r)};
      EveryKeyKept(older, key, deeper, k);
      var rest := MostRecent(older, key, deeper);
      assert history == older + [r];
      MetLast(older, r, key, k);
      if key(r) !in seen {
        assert MostRecent(history, key, seen) == [r] + rest;
        MetFirst(r, rest, key, k);
      }
    }
  }

  lemma MetLast<T, K>(xs: seq<T>, r: T, key: T -> K, k: K)
    ensures Met(xs + [r], key, k) <==> Met(xs, key, k) || key(r) == k
  {
    if Met(xs, key, k) {
      var i :| 0 <= i < |xs| && key(xs[i]) == k;
      assert (xs + [r])[i] == xs[i];
    }
    assert (xs + [r])[|xs|] == r;
  }

  lemma MetFirst<T, K>(r: T, xs: seq<T>, key: T -> K, k: K)
    ensures Met([r] + xs, key, k) <==> key(r) == k || Met(xs, key, k)
  {
    if Met(xs, key, k) {
      var i :| 0 <= i < |xs| && key(xs[i]) == k;
      assert ([r] + xs)[i + 1] == xs[i];
    }
    assert ([r] + xs)[0] == r;
  }

  /** The keys of a list. */
  ghost function KeySet<T, K>(xs: seq<T>, key: T -> K): set<K> {
    set i | 0 <= i < |xs| :: key(xs[i])
  }

  lemma KeyMet<T, K>(xs: seq<T>, key: T -> K, k: K)
    ensures k in KeySet(xs, key) <==> Met(xs, key, k)
  {}

  lemma {:induction false} DistinctKeys<T, K>(xs: seq<T>, key: T -> K)
    requires forall i, j | 0 <= i < j < |xs| :: key(xs[i]) != key(xs[j])
    ensures |KeySet(xs, key)| == |xs|
  {
    if xs != [] {
      var n := |xs| - 1;
      DistinctKeys(xs[..n], key);
      assert key(xs[n]) !in KeySet(xs[..n], key);
      assert KeySet(xs, key) == KeySet(xs[..n], key) + {key(xs[n])};
    }
  }

  lemma SameKeys<T, K>(history: seq<T>, key: T -> K, k: K)
    ensures k in KeySet(MostRecent(history, key, iset{}), key) <==> k in KeySet(history, key)
  {
    hide MostRecent, KeySet, Met;
    EveryKeyKept(history, key, iset{}, k);
    KeyMet(MostRecent(history, key, iset{}), key, k);
    KeyMet(history, key, k);
  }

  /** A ledger holds one record for each key ever used, up to a hundred of them. */
  lemma LedgerSize<T, K>(history: seq<T>, same: (T, T) -> bool, key: T -> K)
    requires MatchesByKey(history, same, key)
    ensures var keys := |KeySet(history, key)|; |After(history, same)| == if keys < 100 then keys else 100
  {
    hide After;
    var m := MostRecent(history, key, iset{});
    LedgerIsMostRecent(history, same, key);
    MostRecentDistinct(history, key, iset{});
    DistinctKeys(m, key);
    hide MostRecent;
    hide KeySet, Met, MatchesByKey;
    var kept, used := KeySet(m, key), KeySet(history, key);
    forall k | k in kept ensures k in used { SameKeys(history, key, k); }
    forall k | k in used ensures k in kept { SameKeys(history, key, k); }
    assert kept == used;
  }

  /** `findIndex`, `splice`, `unshift`, `slice` on a list field. */
  class List<T> {
    var records: seq<T>

    constructor ()
      ensures records == []
    {
      records := [];
    }

    method Use(r: T, same: (T, T) -> bool)
      modifies this
      ensures records == Touch(old(records), r, same)
    {
      var i := 0;
      while i < |records| && !same(records[i], r)
        invariant 0 <= i <= |records| && records == old(records)
        invariant forall j | 0 <= j < i :: !same(records[j], r)
      {
        i := i + 1;
      }
      assert i == FindIndex(records, r, same);
      hide FindIndex;
      if i < |records| {
        records := records[..i] + records[i + 1..];
      }
      records := [r] + records;
      if |records| > CAPACITY {
        records := records[..CAPACITY];
      }
    }
  }
}
