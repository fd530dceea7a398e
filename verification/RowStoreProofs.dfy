/**
Rebuilding a snapshot from its rows, in any order and through any tenant filter.
*/
module RowStoreProofs {
  import opened Text
  import opened Json
  import opened Lists
  import opened Options
  import opened RowStore

  /* ---- counting rows ---- */

  ghost predicate DistinctNames(cs: seq<Section>) {
    forall i, j | 0 <= i < j < |cs| :: cs[i].name != cs[j].name
  }

  /** The documents of the section with a name. */
  function DocsOf(cs: seq<Section>, c: string): seq<Json> {
    if cs == [] then []
    else if cs[|cs| - 1].name == c then cs[|cs| - 1].docs
    else DocsOf(cs[..|cs| - 1], c)
  }

  lemma {:induction false} DocsOfNone(cs: seq<Section>, c: string)
    requires forall i | 0 <= i < |cs| :: cs[i].name != c
    ensures DocsOf(cs, c) == []
  {
    if cs != [] { DocsOfNone(cs[..|cs| - 1], c); }
  }

  lemma {:induction false} DocsOfAt(cs: seq<Section>, i: nat)
    requires DistinctNames(cs) && i < |cs|
    ensures DocsOf(cs, cs[i].name) == cs[i].docs
  {
    if i < |cs| - 1 { DocsOfAt(cs[..|cs| - 1], i); }
  }

  lemma RowsCollection(c: Section, x: Row)
    requires x.collection != c.name
    ensures multiset(Rows(c))[x] == 0
  {
    assert x !in Rows(c) by { assert forall i | 0 <= i < |Rows(c)| :: Rows(c)[i].collection == c.name; }
  }

  lemma {:induction false} FlattenCount(cs: seq<Section>, x: Row)
    requires DistinctNames(cs)
    ensures multiset(Flatten(cs))[x] == multiset(Rows(Section(x.collection, DocsOf(cs, x.collection))))[x]
  {
    if cs != [] {
      var n := |cs| - 1;
      FlattenCount(cs[..n], x);
      if cs[n].name == x.collection {
        DocsOfNone(cs[..n], x.collection);
        assert cs[n] == Section(x.collection, DocsOf(cs, x.collection));
      } else {
        RowsCollection(cs[n], x);
      }
    }
  }

  /** The rows a scope sees of one section, in order. */
  function SeenRows(c: Section, p: Scope): seq<Row> {
    Select(Rows(c), Seen(p))
  }

  /** However the rows come back, those of a collection are the rows of its section. */
  lemma GroupIsSection(cs: seq<Section>, p: Scope, rows: seq<Row>, c: string)
    requires DistinctNames(cs)
    requires multiset(rows) == multiset(Select(Flatten(cs), Seen(p)))
    ensures multiset(Group(rows, c)) == multiset(SeenRows(Section(c, DocsOf(cs, c)), p))
  {
    hide Select, Flatten, DocsOf, Rows;
    var here := Section(c, DocsOf(cs, c));
    forall x ensures multiset(Group(rows, c))[x] == multiset(SeenRows(here, p))[x] {
      SelectCount(rows, InCollection(c), x);
      SelectCount(Flatten(cs), Seen(p), x);
      SelectCount(Rows(here), Seen(p), x);
      FlattenCount(cs, x);
      if x.collection != c { RowsCollection(here, x); }
    }
  }

  /* ---- order ---- */

  ghost predicate StrictlyByOrdinal(rows: seq<Row>) {
    forall i, j | 0 <= i < j < |rows| :: rows[i].ordinal < rows[j].ordinal
  }

  lemma {:induction false} SeenRowsOrdered(name: string, docs: seq<Json>, p: Scope)
    ensures var rows := SeenRows(Section(name, docs), p);
      StrictlyByOrdinal(rows) && Docs(rows) == SeenDocs(docs, p) &&
      forall i | 0 <= i < |rows| :: rows[i].ordinal < |docs|
  {
    if docs != [] {
      var n := |docs| - 1;
      var all := Rows(Section(name, docs));
      assert all[..n] == Rows(Section(name, docs[..n]));
      SeenRowsOrdered(name, docs[..n], p);
      hide TenantOf, Rows;
      var front := SeenRows(Section(name, docs[..n]), p);
      if p(TenantOf(docs[n])) {
        assert SeenRows(Section(name, docs), p) == front + [all[n]];
        assert Docs(front + [all[n]]) == Docs(front) + [docs[n]];
      } else {
        assert SeenRows(Section(name, docs), p) == front;
      }
    }
  }

  lemma SameLast(a: seq<Row>, b: seq<Row>)
    requires ByOrdinal(a) && StrictlyByOrdinal(b) && multiset(a) == multiset(b) && a != [] && b != []
    ensures a[|a| - 1] == b[|b| - 1]
  {
    var x, y := a[|a| - 1], b[|b| - 1];
    assert x in multiset(b) && y in multiset(a);
    var i :| 0 <= i < |b| && b[i] == x;
    var j :| 0 <= j < |a| && a[j] == y;
    assert a[j].ordinal <= x.ordinal;
    if i < |b| - 1 {
      assert false;
    }
  }

  lemma WithoutLast(a: seq<Row>)
    requires a != []
    ensures multiset(a[..|a| - 1]) == multiset(a) - multiset{a[|a| - 1]}
  {
    assert a == a[..|a| - 1] + [a[|a| - 1]];
  }

  /** A sorted list is determined by its elements when no two ordinals agree. */
  lemma {:induction false} SortedUnique(a: seq<Row>, b: seq<Row>)
    requires ByOrdinal(a) && StrictlyByOrdinal(b) && multiset(a) == multiset(b)
    ensures a == b
  {
    assert |a| == |b| by { assert |multiset(a)| == |multiset(b)|; }
    if a != [] {
      SameLast(a, b);
      WithoutLast(a);
      WithoutLast(b);
      SortedUnique(a[..|a| - 1], b[..|b| - 1]);
      assert a == a[..|a| - 1] + [a[|a| - 1]] && b == b[..|b| - 1] + [b[|b| - 1]];
    }
  }

  /** What the rebuilt collection holds, and whether it exists at all. */
  lemma CollectionRebuilt(cs: seq<Section>, p: Scope, rows: seq<Row>, c: string)
    requires DistinctNames(cs)
    requires multiset(rows) == multiset(Select(Flatten(cs), Seen(p)))
    ensures OrderedDocs(rows, c) == SeenDocs(DocsOf(cs, c), p)
    ensures Group(rows, c) == [] <==> SeenDocs(DocsOf(cs, c), p) == []
    ensures |DocsOf(cs, c)| == 1 && Group(rows, c) != [] ==> Group(rows, c)[0].doc == DocsOf(cs, c)[0]
  {
    hide Select, Flatten, DocsOf, SeenDocs, Rows;
    var docs := DocsOf(cs, c);
    var target := SeenRows(Section(c, docs), p);
    GroupIsSection(cs, p, rows, c);
    SeenRowsOrdered(c, docs, p);
    SortedUnique(SortRows(Group(rows, c)), target);
    assert |Group(rows, c)| == |target| by { assert |multiset(Group(rows, c))| == |multiset(target)|; }
    if |docs| == 1 && target != [] {
      OneSeen(c, docs, p);
      assert Group(rows, c)[0] in multiset(target);
    }
  }

  lemma OneSeen(c: string, docs: seq<Json>, p: Scope)
    requires |docs| == 1 && SeenRows(Section(c, docs), p) != []
    ensures SeenRows(Section(c, docs), p) == [Row(c, 0, TenantOf(docs[0]), docs[0])]
  {
    var r := Row(c, 0, TenantOf(docs[0]), docs[0]);
    assert Rows(Section(c, docs)) == [r] && [r][..0] == [];
    assert Select([r], Seen(p)) == if p(r.tenantId) then [] + [r] else [];
  }

  /* ---- the sections of a snapshot ---- */

  lemma PrefixInjective(p: string, a: string, b: string)
    ensures p + a == p + b ==> a == b
  {
    assert (p + a)[|p|..] == a && (p + b)[|p|..] == b;
  }

  lemma TakePrefix(p: string, a: string)
    ensures (p + a)[..|p|] == p && (p + a)[|p|..] == a
  {}

  /** First letters that tell the five kinds of section apart. */
  function Kind(c: string): (char, char) {
    if |c| < 7 then (' ', ' ') else (c[0], c[6])
  }

  lemma Kinds(k: string)
    ensures Kind("root-obj:tenant") == ('r', 'b')
    ensures Kind("root-arr:" + k) == ('r', 'r') && Kind("root-map:" + k) == ('r', 'a')
    ensures Kind("fleet-arr:" + k) == ('f', 'a') && Kind("fleet-val:" + k) == ('f', 'v')
  {}

  lemma SectionKind(s: Snapshot, keys: seq<string>, i: nat)
    requires i < |Sections(s, keys)|
    ensures var c := Sections(s, keys)[i];
      if i == 0 then c.name == "root-obj:tenant"
      else if i < 6 then c == Section("root-arr:" + ROOT_ARRAYS[i - 1], Items(s.root, ROOT_ARRAYS[i - 1]))
      else if i < 8 then c == Section("root-map:" + ROOT_MAPS[i - 6], Items(s.root, ROOT_MAPS[i - 6]))
      else i - 8 < |keys| && c == FleetSection(s.fleet, keys[i - 8])
  {}

  lemma FleetName(fleet: map<string, Json>, k: string)
    ensures FleetSection(fleet, k).name == (if k in fleet && fleet[k].Arr? then "fleet-arr:" + k else "fleet-val:" + k)
  {}

  lemma RootKeysDistinct()
    ensures Distinct(ROOT_ARRAYS) && Distinct(ROOT_MAPS)
  {}

  lemma SectionNamesDiffer(s: Snapshot, keys: seq<string>, i: nat, j: nat)
    requires i < j < |Sections(s, keys)| == 8 + |keys|
    requires i >= 8 ==> keys[i - 8] != keys[j - 8]
    ensures Sections(s, keys)[i].name != Sections(s, keys)[j].name
  {
    hide Sections, FleetSection, Kind;
    SectionKind(s, keys, i);
    SectionKind(s, keys, j);
    RootKeysDistinct();
    var a := if i == 0 then "" else if i < 6 then ROOT_ARRAYS[i - 1] else if i < 8 then ROOT_MAPS[i - 6]
      else keys[i - 8];
    var b := if j < 6 then ROOT_ARRAYS[j - 1] else if j < 8 then ROOT_MAPS[j - 6] else keys[j - 8];
    Kinds(a);
    Kinds(b);
    FleetName(s.fleet, a);
    FleetName(s.fleet, b);
    PrefixInjective("root-arr:", a, b);
    PrefixInjective("root-map:", a, b);
    PrefixInjective("fleet-arr:", a, b);
    PrefixInjective("fleet-val:", a, b);
  }

  lemma SectionsDistinct(s: Snapshot, keys: seq<string>)
    requires Distinct(keys)
    ensures DistinctNames(Sections(s, keys))
  {
    hide Sections;
    SectionCount(s, keys);
    forall i, j | 0 <= i < j < |Sections(s, keys)| ensures Sections(s, keys)[i].name != Sections(s, keys)[j].name {
      SectionNamesDiffer(s, keys, i, j);
    }
  }

  lemma RootDocs(s: Snapshot, keys: seq<string>)
    requires Distinct(keys)
    ensures DocsOf(Sections(s, keys), "root-obj:tenant") == TenantSection(s).docs
    ensures forall k | k in ROOT_ARRAYS :: DocsOf(Sections(s, keys), "root-arr:" + k) == Items(s.root, k)
    ensures forall k | k in ROOT_MAPS :: DocsOf(Sections(s, keys), "root-map:" + k) == Items(s.root, k)
  {
    hide FleetSection, DocsOf;
    var cs := Sections(s, keys);
    SectionsDistinct(s, keys);
    DocsOfAt(cs, 0);
    assert cs[0] == TenantSection(s);
    forall k | k in ROOT_ARRAYS ensures DocsOf(cs, "root-arr:" + k) == Items(s.root, k) {
      var i :| 0 <= i < |ROOT_ARRAYS| && ROOT_ARRAYS[i] == k;
      SectionKind(s, keys, i + 1);
      DocsOfAt(cs, i + 1);
    }
    forall k | k in ROOT_MAPS ensures DocsOf(cs, "root-map:" + k) == Items(s.root, k) {
      var i :| 0 <= i < |ROOT_MAPS| && ROOT_MAPS[i] == k;
      SectionKind(s, keys, i + 6);
      DocsOfAt(cs, i + 6);
    }
  }

  /** The documents filed for a fleet key under one of its two possible names. */
  function FleetDocs(fleet: map<string, Json>, keys: seq<string>, k: string, isArray: bool): seq<Json> {
    if k in keys && (k in fleet && fleet[k].Arr?) == isArray then FleetSection(fleet, k).docs else []
  }

  function FleetCollection(k: string, isArray: bool): string {
    (if isArray then "fleet-arr:" else "fleet-val:") + k
  }

  lemma FleetDocsFiled(s: Snapshot, keys: seq<string>, k: string, isArray: bool)
    requires Distinct(keys)
    ensures DocsOf(Sections(s, keys), FleetCollection(k, isArray)) == FleetDocs(s.fleet, keys, k, isArray)
  {
    hide Sections, DocsOf, FleetSection, Kind;
    var cs := Sections(s, keys);
    var c := FleetCollection(k, isArray);
    SectionsDistinct(s, keys);
    Kinds(k);
    if k in keys && (k in s.fleet && s.fleet[k].Arr?) == isArray {
      var i :| 0 <= i < |keys| && keys[i] == k;
      assert |cs| == 8 + |keys| by { SectionCount(s, keys); }
      SectionKind(s, keys, i + 8);
      FleetName(s.fleet, k);
      DocsOfAt(cs, i + 8);
    } else {
      forall i | 0 <= i < |cs| ensures cs[i].name != c {
        SectionKind(s, keys, i);
        var a := if i == 0 then "" else if i < 6 then ROOT_ARRAYS[i - 1] else if i < 8 then ROOT_MAPS[i - 6]
          else keys[i - 8];
        Kinds(a);
        FleetName(s.fleet, a);
        PrefixInjective("fleet-arr:", a, k);
        PrefixInjective("fleet-val:", a, k);
      }
      DocsOfNone(cs, c);
    }
  }

  lemma SectionCount(s: Snapshot, keys: seq<string>)
    ensures |Sections(s, keys)| == 8 + |keys|
  {}

  /* ---- rebuilding the fleet ---- */

  lemma FleetCollectionOf(c: string)
    requires IsFleet(c)
    ensures c == FleetCollection(c[10..], true) || c == FleetCollection(c[10..], false)
  {
    assert c == c[..10] + c[10..];
  }

  /** When a key has rows under at most one of its names, that collection sets it. */
  lemma {:induction false} FleetFromAt(rows: seq<Row>, cs: seq<string>, k: string)
    requires FleetCollection(k, true) !in cs || FleetCollection(k, false) !in cs
    ensures var m := FleetFrom(rows, cs);
      && (k in m <==> FleetCollection(k, true) in cs || FleetCollection(k, false) in cs)
      && (FleetCollection(k, true) in cs ==> m[k] == FleetValue(rows, FleetCollection(k, true)))
      && (FleetCollection(k, false) in cs ==> m[k] == FleetValue(rows, FleetCollection(k, false)))
  {
    hide FleetValue;
    TakePrefix("fleet-arr:", k);
    TakePrefix("fleet-val:", k);
    if cs != [] {
      var n := |cs| - 1;
      assert cs == cs[..n] + [cs[n]];
      FleetFromAt(rows, cs[..n], k);
      if IsFleet(cs[n]) { FleetCollectionOf(cs[n]); }
    }
  }

  lemma CollectionListed(rows: seq<Row>, c: string)
    ensures c in Collections(rows) <==> Group(rows, c) != []
  {
    SelectSome(rows, InCollection(c));
    if Group(rows, c) != [] {
      var r :| r in rows && InCollection(c)(r);
      assert r.collection == c;
    }
    if c in Collections(rows) {
      var r :| r in rows && r.collection == c;
      assert InCollection(c)(r);
    }
  }

  ghost predicate RowsOfView(s: Snapshot, keys: seq<string>, p: Scope, rows: seq<Row>) {
    Distinct(keys) && multiset(rows) == multiset(Select(SnapshotToRows(s, keys), Seen(p)))
  }

  lemma FleetKeyRebuilt(s: Snapshot, keys: seq<string>, p: Scope, rows: seq<Row>, k: string)
    requires RowsOfView(s, keys, p, rows)
    ensures var m, v := FleetFrom(rows, Collections(rows)), SeenFleet(s.fleet, keys, p);
      (k in m <==> k in v) && (k in v ==> m[k] == v[k])
  {
    hide Sections, DocsOf, Select, Flatten, Collections, SeenDocs, FleetFrom, OrderedDocs, Group;
    var cs := Sections(s, keys);
    SectionsDistinct(s, keys);
    var a, v := FleetCollection(k, true), FleetCollection(k, false);
    FleetDocsFiled(s, keys, k, true);
    FleetDocsFiled(s, keys, k, false);
    CollectionRebuilt(cs, p, rows, a);
    CollectionRebuilt(cs, p, rows, v);
    CollectionListed(rows, a);
    CollectionListed(rows, v);
    NoneSeen(p);
    FleetFromAt(rows, Collections(rows), k);
    TakePrefix("fleet-arr:", k);
    TakePrefix("fleet-val:", k);
  }

  lemma NoneSeen(p: Scope)
    ensures SeenDocs([], p) == []
  {}

  lemma FleetRebuilt(s: Snapshot, keys: seq<string>, p: Scope, rows: seq<Row>)
    requires RowsOfView(s, keys, p, rows)
    ensures FleetFrom(rows, Collections(rows)) == SeenFleet(s.fleet, keys, p)
  {
    hide FleetFrom, SeenFleet, Collections, RowsOfView;
    var m, v := FleetFrom(rows, Collections(rows)), SeenFleet(s.fleet, keys, p);
    forall k ensures (k in m <==> k in v) && (k in v ==> m[k] == v[k]) { FleetKeyRebuilt(s, keys, p, rows, k); }
  }

  lemma RootRebuilt(s: Snapshot, keys: seq<string>, p: Scope, rows: seq<Row>)
    requires RowsOfView(s, keys, p, rows)
    ensures RootFrom(rows, "root-arr:", ROOT_ARRAYS) == SeenRoot(s.root, ROOT_ARRAYS, p)
    ensures RootFrom(rows, "root-map:", ROOT_MAPS) == SeenRoot(s.root, ROOT_MAPS, p)
  {
    hide Sections, DocsOf, Select, Flatten, SeenDocs, OrderedDocs, Group, Items, ROOT_ARRAYS, ROOT_MAPS;
    SectionsDistinct(s, keys);
    RootDocs(s, keys);
    RootListRebuilt(s, keys, p, rows, "root-arr:", ROOT_ARRAYS);
    RootListRebuilt(s, keys, p, rows, "root-map:", ROOT_MAPS);
  }

  lemma RootListRebuilt(s: Snapshot, keys: seq<string>, p: Scope, rows: seq<Row>, prefix: string, ks: seq<string>)
    requires RowsOfView(s, keys, p, rows) && DistinctNames(Sections(s, keys))
    requires forall k | k in ks :: DocsOf(Sections(s, keys), prefix + k) == Items(s.root, k)
    ensures RootFrom(rows, prefix, ks) == SeenRoot(s.root, ks, p)
  {
    hide Sections, DocsOf, Select, Flatten, SeenDocs, OrderedDocs, Group, Items, DistinctNames;
    forall k | k in ks
      ensures OrderedDocs(rows, prefix + k) == SeenDocs(Items(s.root, k), p)
      ensures Group(rows, prefix + k) != [] <==> SeenDocs(Items(s.root, k), p) != []
    {
      CollectionRebuilt(Sections(s, keys), p, rows, prefix + k);
    }
  }

  lemma TenantRebuilt(s: Snapshot, keys: seq<string>, p: Scope, rows: seq<Row>)
    requires RowsOfView(s, keys, p, rows)
    ensures RowsToSnapshot(rows).tenant == View(s, keys, p).tenant
  {
    hide Sections, DocsOf, Select, Flatten, OrderedDocs, Group, SeenFleet, SeenRoot, RootFrom, FleetFrom, Collections;
    SectionsDistinct(s, keys);
    RootDocs(s, keys);
    CollectionRebuilt(Sections(s, keys), p, rows, "root-obj:tenant");
    var docs := TenantSection(s).docs;
    if docs != [] { assert docs[..0] == []; assert SeenDocs(docs, p) == if p(TenantOf(docs[0])) then docs else []; }
  }

  /**
  The rows a scope sees, in any order, rebuild exactly the snapshot with every collection filtered
  to that scope: order within collections kept, collections with nothing to show absent.
  */
  lemma RebuildView(s: Snapshot, keys: seq<string>, p: Scope, rows: seq<Row>)
    requires RowsOfView(s, keys, p, rows)
    ensures RowsToSnapshot(rows) == View(s, keys, p)
  {
    hide FleetFrom, SeenFleet, RootFrom, SeenRoot, RowsOfView, Collections, Group;
    TenantRebuilt(s, keys, p, rows);
    RootRebuilt(s, keys, p, rows);
    FleetRebuilt(s, keys, p, rows);
  }

  const EVERYTHING: Scope := (t: Text) => true

  lemma {:induction false} SeeAll(docs: seq<Json>)
    ensures SeenDocs(docs, EVERYTHING) == docs
  {
    if docs != [] {
      SeeAll(docs[..|docs| - 1]);
      assert docs == docs[..|docs| - 1] + [docs[|docs| - 1]];
    }
  }

  /** A snapshot without what leaves no row: absent values, empty arrays, unknown fields. */
  function Stored(s: Snapshot, keys: seq<string>): Snapshot {
    Snapshot(
      if IsObject(s.tenant) then s.tenant else None,
      map k | k in ROOT_ARRAYS + ROOT_MAPS && k in s.root && s.root[k].Arr? && s.root[k].items != [] :: s.root[k],
      map k | k in keys && k in s.fleet && s.fleet[k] != Arr([]) :: s.fleet[k])
  }

  lemma RootStored(root: map<string, Json>, ks: seq<string>)
    ensures SeenRoot(root, ks, EVERYTHING) == map k | k in ks && k in root && root[k].Arr? && root[k].items != [] ::
      root[k]
  {
    forall docs { SeeAll(docs); }
  }

  lemma FleetStored(fleet: map<string, Json>, keys: seq<string>)
    ensures SeenFleet(fleet, keys, EVERYTHING) == map k | k in keys && k in fleet && fleet[k] != Arr([]) :: fleet[k]
  {
    forall docs { SeeAll(docs); }
  }

  lemma StoredIsView(s: Snapshot, keys: seq<string>)
    ensures View(s, keys, EVERYTHING) == Stored(s, keys)
  {
    hide SeenRoot, SeenFleet, EVERYTHING, ROOT_ARRAYS, ROOT_MAPS, TenantOf;
    RootStored(s.root, ROOT_ARRAYS);
    RootStored(s.root, ROOT_MAPS);
    FleetStored(s.fleet, keys);
    SeesEverything(if IsObject(s.tenant) then TenantOf(s.tenant.value) else []);
  }

  lemma SeesEverything(t: Text)
    ensures EVERYTHING(t)
  {}

  /** `rowsToSnapshot` undoes `snapshotToRows` for every order of the rows. */
  lemma RowsRoundTrip(s: Snapshot, keys: seq<string>, rows: seq<Row>)
    requires Distinct(keys)
    requires multiset(rows) == multiset(SnapshotToRows(s, keys))
    ensures RowsToSnapshot(rows) == Stored(s, keys)
  {
    hide RowsToSnapshot, SnapshotToRows, View, Stored;
    SelectAll(SnapshotToRows(s, keys), Seen(EVERYTHING));
    RebuildView(s, keys, EVERYTHING, rows);
    StoredIsView(s, keys);
  }

  /* ---- the primary key ---- */

  ghost predicate PrimaryKeysDistinct(rows: seq<Row>) {
    forall i, j | 0 <= i < j < |rows| :: (rows[i].collection, rows[i].ordinal) != (rows[j].collection, rows[j].ordinal)
  }

  /** Two sections with documents never share a name. */
  ghost predicate FullNamesDistinct(cs: seq<Section>) {
    forall i, j | 0 <= i < j < |cs| && cs[i].docs != [] && cs[j].docs != [] :: cs[i].name != cs[j].name
  }

  lemma {:induction false} FlattenFrom(cs: seq<Section>, r: Row)
    requires r in Flatten(cs)
    ensures exists i :: 0 <= i < |cs| && cs[i].docs != [] && cs[i].name == r.collection
  {
    var n := |cs| - 1;
    if r in Rows(cs[n]) {
      assert cs[n].docs != [] && cs[n].name == r.collection;
    } else {
      FlattenFrom(cs[..n], r);
      var i :| 0 <= i < n && cs[..n][i].docs != [] && cs[..n][i].name == r.collection;
      assert cs[i] == cs[..n][i];
    }
  }

  lemma {:induction false} FlattenHas(cs: seq<Section>, i: nat)
    requires i < |cs| && cs[i].docs != []
    ensures Rows(cs[i])[0] in Flatten(cs)
  {
    if i < |cs| - 1 { FlattenHas(cs[..|cs| - 1], i); }
  }

  function KeyOf(r: Row): (string, nat) {
    (r.collection, r.ordinal)
  }

  ghost predicate ShareKey(a: seq<Row>, b: seq<Row>) {
    exists x, y :: x in a && y in b && KeyOf(x) == KeyOf(y)
  }

  lemma AppendKeys(a: seq<Row>, b: seq<Row>)
    ensures PrimaryKeysDistinct(a + b) <==> PrimaryKeysDistinct(a) && PrimaryKeysDistinct(b) && !ShareKey(a, b)
  {
    var c := a + b;
    if PrimaryKeysDistinct(c) {
      forall i, j | 0 <= i < j < |a| ensures KeyOf(a[i]) != KeyOf(a[j]) { assert c[i] == a[i] && c[j] == a[j]; }
      forall i, j | 0 <= i < j < |b| ensures KeyOf(b[i]) != KeyOf(b[j]) {
        assert c[|a| + i] == b[i] && c[|a| + j] == b[j];
      }
      forall x, y | x in a && y in b ensures KeyOf(x) != KeyOf(y) {
        var i :| 0 <= i < |a| && a[i] == x;
        var j :| 0 <= j < |b| && b[j] == y;
        assert c[i] == x && c[|a| + j] == y;
      }
    }
    if PrimaryKeysDistinct(a) && PrimaryKeysDistinct(b) && !ShareKey(a, b) {
      forall i, j | 0 <= i < j < |c| ensures KeyOf(c[i]) != KeyOf(c[j]) {
        if i < |a| <= j { assert c[i] in a && c[j] in b; }
      }
    }
  }

  lemma SharedKey(cs: seq<Section>, c: Section)
    ensures ShareKey(Flatten(cs), Rows(c)) <==>
      exists i :: 0 <= i < |cs| && cs[i].docs != [] && c.docs != [] && cs[i].name == c.name
  {
    hide Flatten;
    if ShareKey(Flatten(cs), Rows(c)) {
      var x, y :| x in Flatten(cs) && y in Rows(c) && KeyOf(x) == KeyOf(y);
      FlattenFrom(cs, x);
    }
    forall i | 0 <= i < |cs| && cs[i].docs != [] && c.docs != [] && cs[i].name == c.name
      ensures ShareKey(Flatten(cs), Rows(c))
    {
      FlattenHas(cs, i);
      assert KeyOf(Rows(cs[i])[0]) == KeyOf(Rows(c)[0]);
    }
  }

  lemma {:induction false} FlattenKeys(cs: seq<Section>)
    ensures PrimaryKeysDistinct(Flatten(cs)) <==> FullNamesDistinct(cs)
  {
    if cs != [] {
      var n := |cs| - 1;
      FlattenKeys(cs[..n]);
      AppendKeys(Flatten(cs[..n]), Rows(cs[n]));
      SharedKey(cs[..n], cs[n]);
      assert PrimaryKeysDistinct(Rows(cs[n]));
      FullNamesStep(cs);
    }
  }

  lemma FullNamesStep(cs: seq<Section>)
    requires cs != []
    ensures var n := |cs| - 1; FullNamesDistinct(cs) <==>
      FullNamesDistinct(cs[..n]) &&
      !exists i :: 0 <= i < |cs[..n]| && cs[..n][i].docs != [] && cs[n].docs != [] && cs[..n][i].name == cs[n].name
  {
    var n := |cs| - 1;
    assert forall i | 0 <= i < n :: cs[..n][i] == cs[i];
    if FullNamesDistinct(cs) {
      forall i, j | 0 <= i < j < n && cs[..n][i].docs != [] && cs[..n][j].docs != []
        ensures cs[..n][i].name != cs[..n][j].name { assert cs[i].name != cs[j].name; }
    }
  }

  /**
  The rows of a snapshot have distinct primary keys exactly when no fleet key that is listed twice
  has anything to store.
  */
  lemma PrimaryKeys(s: Snapshot, keys: seq<string>)
    ensures PrimaryKeysDistinct(SnapshotToRows(s, keys)) <==>
      forall i, j | 0 <= i < j < |keys| && keys[i] == keys[j] :: FleetSection(s.fleet, keys[i]).docs == []
  {
    hide Flatten, FleetSection, Sections;
    var cs := Sections(s, keys);
    SectionCount(s, keys);
    FlattenKeys(cs);
    if forall i, j | 0 <= i < j < |keys| && keys[i] == keys[j] :: FleetSection(s.fleet, keys[i]).docs == [] {
      forall i, j | 0 <= i < j < |cs| && cs[i].docs != [] && cs[j].docs != [] ensures cs[i].name != cs[j].name {
        if j >= 8 { SectionKind(s, keys, i); }
        SectionNamesDiffer(s, keys, i, j);
      }
    } else {
      var i, j :| 0 <= i < j < |keys| && keys[i] == keys[j] && FleetSection(s.fleet, keys[i]).docs != [];
      SectionKind(s, keys, i + 8);
      SectionKind(s, keys, j + 8);
      assert cs[i + 8].name == cs[j + 8].name;
    }
  }
}
