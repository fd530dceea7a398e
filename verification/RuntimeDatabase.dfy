/**
The Postgres side of persistence: flattening and rebuilding as loops, chunked inserts with numbered
placeholders, and the delete-all-then-insert transaction.
*/
module RuntimeDatabase {
  import opened Text
  import opened Json
  import opened Lists
  import opened Options
  import opened JsMap
  import opened RowStore
  import opened RowStoreProofs
  import opened TenantPolicy

  /* ---- flattening ---- */

  method PushArray(rows: seq<Row>, name: string, docs: seq<Json>) returns (r: seq<Row>)
    ensures r == rows + Rows(Section(name, docs))
  {
    r := rows;
    for i := 0 to |docs|
      invariant r == rows + Rows(Section(name, docs))[..i]
    {
      r := r + [Row(name, i, TenantOf(docs[i]), docs[i])];
    }
  }

  lemma FlattenAppend(cs: seq<Section>, c: Section)
    ensures Flatten(cs + [c]) == Flatten(cs) + Rows(c)
  {
    assert (cs + [c])[..|cs|] == cs;
  }

  method Flattened(s: Snapshot, keys: seq<string>) returns (rows: seq<Row>)
    ensures rows == SnapshotToRows(s, keys)
  {
    hide FleetSection, Items, Rows, Flatten;
    ghost var done: seq<Section> := [];
    assert Flatten(done) == [] by { FlattenEmpty(); }
    rows := PushArray([], "root-obj:tenant", TenantSection(s).docs);
    FlattenAppend(done, TenantSection(s));
    done := done + [TenantSection(s)];
    for i := 0 to |ROOT_ARRAYS|
      invariant done == [TenantSection(s)] + RootSections("root-arr:", s.root, ROOT_ARRAYS[..i])
      invariant rows == Flatten(done)
    {
      var c := Section("root-arr:" + ROOT_ARRAYS[i], Items(s.root, ROOT_ARRAYS[i]));
      rows := PushArray(rows, c.name, c.docs);
      FlattenAppend(done, c);
      done := done + [c];
    }
    ghost var arrays := done;
    assert ROOT_ARRAYS[..|ROOT_ARRAYS|] == ROOT_ARRAYS;
    for i := 0 to |ROOT_MAPS|
      invariant done == arrays + RootSections("root-map:", s.root, ROOT_MAPS[..i])
      invariant rows == Flatten(done)
    {
      var c := Section("root-map:" + ROOT_MAPS[i], Items(s.root, ROOT_MAPS[i]));
      rows := PushArray(rows, c.name, c.docs);
      FlattenAppend(done, c);
      done := done + [c];
    }
    ghost var maps := done;
    assert ROOT_MAPS[..|ROOT_MAPS|] == ROOT_MAPS;
    for i := 0 to |keys|
      invariant done == maps + FleetSections(s.fleet, keys[..i])
      invariant rows == Flatten(done)
    {
      var c := FleetSection(s.fleet, keys[i]);
      rows := PushArray(rows, c.name, c.docs);
      FlattenAppend(done, c);
      done := done + [c];
    }
    assert keys[..|keys|] == keys;
    assert done == Sections(s, keys);
  }

  lemma FlattenEmpty()
    ensures Flatten([]) == []
  {}

  /* ---- rebuilding ---- */

  /** The Map of grouped rows after some rows. */
  ghost predicate Grouped(m: seq<Entry<string, seq<Row>>>, rows: seq<Row>) {
    var cs := Collections(rows);
    |m| == |cs| && forall i | 0 <= i < |m| :: m[i] == Entry(cs[i], Group(rows, cs[i]))
  }

  lemma {:induction false} CollectionsDistinct(rows: seq<Row>)
    ensures Distinct(Collections(rows))
  {
    if rows != [] { CollectionsDistinct(rows[..|rows| - 1]); }
  }

  lemma GroupedLookup(m: seq<Entry<string, seq<Row>>>, rows: seq<Row>, c: string)
    requires Grouped(m, rows)
    ensures DistinctKeys(m)
    ensures Has(m, c) <==> c in Collections(rows)
    ensures Has(m, c) ==> Get(m, c) == Group(rows, c)
    ensures c !in Collections(rows) ==> Group(rows, c) == []
  {
    hide Group, Collections;
    CollectionsDistinct(rows);
    CollectionListed(rows, c);
    if c in Collections(rows) {
      var i :| 0 <= i < |m| && Collections(rows)[i] == c;
      assert m[i].key == c;
      assert forall j | 0 <= j < i :: m[j].key != c;
      FindUnique(m, c, i);
    }
  }

  method GroupRows(rows: seq<Row>) returns (m: seq<Entry<string, seq<Row>>>)
    ensures Grouped(m, rows)
  {
    hide Set;
    m := [];
    for i := 0 to |rows|
      invariant Grouped(m, rows[..i])
    {
      var c := rows[i].collection;
      GroupStep(m, rows, i);
      if !Has(m, c) { m := Set(m, c, []); }
      m := Set(m, c, Get(m, c) + [rows[i]]);
    }
    assert rows[..|rows|] == rows;
  }

  /** The Map after the next row is pushed onto its group. */
  lemma GroupStep(m: seq<Entry<string, seq<Row>>>, rows: seq<Row>, i: nat)
    requires i < |rows| && Grouped(m, rows[..i])
    ensures var c := rows[i].collection;
      var m' := if Has(m, c) then m else Set(m, c, []);
      Grouped(Set(m', c, Get(m', c) + [rows[i]]), rows[..i + 1])
  {
    hide Grouped;
    var c := rows[i].collection;
    var before, after := rows[..i], rows[..i + 1];
    assert after[..|after| - 1] == before && after[|after| - 1] == rows[i];
    GroupedLookup(m, before, c);
    assert Group(after, c) == Group(before, c) + [rows[i]];
    var cs := Collections(before);
    forall d | d != c ensures Group(after, d) == Group(before, d) {}
    GroupStepMap(m, before, after, c, rows[i]);
  }

  lemma GroupStepMap(m: seq<Entry<string, seq<Row>>>, before: seq<Row>, after: seq<Row>, c: string, r: Row)
    requires Grouped(m, before)
    requires Collections(after) == if c in Collections(before) then Collections(before) else Collections(before) + [c]
    requires Group(after, c) == Group(before, c) + [r]
    requires forall d | d != c :: Group(after, d) == Group(before, d)
    ensures var m' := if Has(m, c) then m else Set(m, c, []);
      Grouped(Set(m', c, Get(m', c) + [r]), after)
  {
    hide Group, Collections;
    GroupedLookup(m, before, c);
    CollectionsDistinct(before);
    if Has(m, c) {
      var i := Find(m, c);
      assert Set(m, c, Get(m, c) + [r]) == m[i := Entry(c, Group(before, c) + [r])];
    } else {
      var m' := Set(m, c, []);
      assert m' == m + [Entry(c, [])];
      FindUnique(m', c, |m|) by { assert forall j | 0 <= j < |m| :: m'[j].key != c; }
      assert Set(m', c, [r]) == m + [Entry(c, [r])];
    }
  }

  method OrderedGroup(m: seq<Entry<string, seq<Row>>>, c: string) returns (docs: seq<Json>)
    ensures docs == Docs(SortRows(if Has(m, c) then Get(m, c) else []))
  {
    docs := Docs(SortRows(if Has(m, c) then Get(m, c) else []));
  }

  method RebuildRoot(ghost rows: seq<Row>, m: seq<Entry<string, seq<Row>>>, prefix: string, ks: seq<string>)
    returns (root: map<string, Json>)
    requires Grouped(m, rows) && Distinct(ks)
    ensures root == RootFrom(rows, prefix, ks)
  {
    hide Group, SortRows, Grouped, Has, Get, Distinct;
    root := map[];
    for i := 0 to |ks|
      invariant root == RootFrom(rows, prefix, ks[..i])
    {
      GroupedLookup(m, rows, prefix + ks[i]);
      GroupedFull(m, rows, prefix + ks[i]);
      if Has(m, prefix + ks[i]) {
        var docs := OrderedGroup(m, prefix + ks[i]);
        root := root[ks[i] := Arr(docs)];
      }
    }
    assert ks[..|ks|] == ks;
  }

  lemma GroupedFull(m: seq<Entry<string, seq<Row>>>, rows: seq<Row>, c: string)
    requires Grouped(m, rows)
    ensures Has(m, c) <==> Group(rows, c) != []
  {
    hide Grouped, Group, Collections;
    GroupedLookup(m, rows, c);
    CollectionListed(rows, c);
  }

  /** `rowsToSnapshot` with its Map of groups. */
  method Rebuilt(rows: seq<Row>) returns (s: Snapshot)
    ensures s == RowsToSnapshot(rows)
  {
    hide Group, SortRows, Collections, ROOT_ARRAYS, ROOT_MAPS, RootFrom;
    var m := GroupRows(rows);
    RootKeysDistinct();
    var arrays := RebuildRoot(rows, m, "root-arr:", ROOT_ARRAYS);
    var maps := RebuildRoot(rows, m, "root-map:", ROOT_MAPS);
    GroupedLookup(m, rows, "root-obj:tenant");
    GroupedFull(m, rows, "root-obj:tenant");
    var tenant: Option<Json> := None;
    if Has(m, "root-obj:tenant") {
      var tenants: seq<Row> := Get(m, "root-obj:tenant");
      tenant := Some(tenants[0].doc);
    }
    var fleet: map<string, Json> := map[];
    for i := 0 to |m|
      invariant fleet == FleetFrom(rows, Collections(rows)[..i])
    {
      ghost var cs := Collections(rows);
      var c := m[i].key;
      assert cs[..i + 1][..i] == cs[..i] && c == cs[i];
      GroupedLookup(m, rows, c);
      GroupedFull(m, rows, c);
      assert Has(m, c);
      if HasPrefix(c, "fleet-arr:") {
        var docs := OrderedGroup(m, c);
        fleet := fleet[c[10..] := Arr(docs)];
      } else if HasPrefix(c, "fleet-val:") {
        var group: seq<Row> := Get(m, c);
        fleet := fleet[c[10..] := group[0].doc];
      }
    }
    assert Collections(rows)[..|m|] == Collections(rows);
    s := Snapshot(tenant, arrays + maps, fleet);
  }

  /* ---- chunked inserts ---- */

  datatype Param = CollectionParam(c: string) | OrdinalParam(n: nat) | TenantParam(t: Text) | DocParam(v: Json)

  /** One INSERT: rows of placeholder numbers, counted from 1, and the parameters they name. */
  datatype Statement = Statement(values: seq<(nat, nat, nat, nat)>, params: seq<Param>)

  const CHUNK := 500

  /** The row a tuple of placeholders stands for, when every parameter has its column's type. */
  function RowAt(st: Statement, v: (nat, nat, nat, nat)): Option<Row> {
    var n := |st.params|;
    if !(1 <= v.0 <= n && 1 <= v.1 <= n && 1 <= v.2 <= n && 1 <= v.3 <= n) then None
    else
      var c, o, t, d := st.params[v.0 - 1], st.params[v.1 - 1], st.params[v.2 - 1], st.params[v.3 - 1];
      if c.CollectionParam? && o.OrdinalParam? && t.TenantParam? && d.DocParam? then Some(Row(c.c, o.n, t.t, d.v))
        else None
  }

  /** A statement that inserts exactly these rows, in order, with at most 2000 parameters. */
  ghost predicate Inserts(st: Statement, rows: seq<Row>) {
    && |st.values| == |rows| && |st.params| == 4 * |rows| <= 2000
    && forall i | 0 <= i < |rows| :: RowAt(st, st.values[i]) == Some(rows[i])
  }

  function Concat(chunks: seq<seq<Row>>): seq<Row> {
    if chunks == [] then [] else Concat(chunks[..|chunks| - 1]) + chunks[|chunks| - 1]
  }

  method BuildStatement(chunk: seq<Row>) returns (st: Statement)
    requires |chunk| <= 500
    ensures Inserts(st, chunk)
  {
    var values: seq<(nat, nat, nat, nat)> := [];
    var params: seq<Param> := [];
    for i := 0 to |chunk|
      invariant |values| == i && |params| == 4 * i
      invariant forall j | 0 <= j < i :: values[j] == (4 * j + 1, 4 * j + 2, 4 * j + 3, 4 * j + 4)
      invariant forall j | 0 <= j < i ::
        && params[4 * j] == CollectionParam(chunk[j].collection) && params[4 * j + 1] == OrdinalParam(chunk[j].ordinal)
        && params[4 * j + 2] == TenantParam(chunk[j].tenantId) && params[4 * j + 3] == DocParam(chunk[j].doc)
    {
      var base := i * 4;
      values := values + [(base + 1, base + 2, base + 3, base + 4)];
      params := params + [CollectionParam(chunk[i].collection), OrdinalParam(chunk[i].ordinal),
        TenantParam(chunk[i].tenantId), DocParam(chunk[i].doc)];
    }
    st := Statement(values, params);
  }

  /** The loop over chunks: its statements insert the whole row list, in order. */
  method BuildStatements(rows: seq<Row>) returns (sts: seq<Statement>, ghost chunks: seq<seq<Row>>)
    ensures |sts| == |chunks| && Concat(chunks) == rows
    ensures forall i | 0 <= i < |sts| :: Inserts(sts[i], chunks[i]) && 0 < |chunks[i]| <= 500
    ensures |sts| == (|rows| + 499) / 500
  {
    hide Inserts;
    sts, chunks := [], [];
    var start := 0;
    while start < |rows|
      invariant start == |sts| * CHUNK
      invariant start < |rows| + CHUNK && (start > |rows| ==> |sts| == (|rows| + CHUNK - 1) / CHUNK)
      invariant |sts| == |chunks| && Concat(chunks) == rows[..if start < |rows| then start else |rows|]
      invariant forall i | 0 <= i < |sts| :: Inserts(sts[i], chunks[i]) && 0 < |chunks[i]| <= CHUNK
      decreases |rows| - start
    {
      var end := if start + CHUNK < |rows| then start + CHUNK else |rows|;
      var chunk := rows[start..end];
      var st := BuildStatement(chunk);
      assert (chunks + [chunk])[..|chunks|] == chunks;
      assert rows[..end] == rows[..start] + chunk;
      sts, chunks := sts + [st], chunks + [chunk];
      start := start + CHUNK;
    }
    assert rows[..|rows|] == rows;
  }

  /* ---- the transaction ---- */

  function Hidden(setting: Option<Text>): Row -> bool {
    (r: Row) => !Visible(setting)(r.tenantId)
  }

  lemma {:induction false} NothingHiddenFromAggregator(rows: seq<Row>)
    ensures Select(rows, Hidden(Some(ALL))) == []
  {
    if rows != [] {
      NothingHiddenFromAggregator(rows[..|rows| - 1]);
      AggregatorUnrestricted(rows[|rows| - 1].tenantId);
    }
  }

  /** Rows inserted by a list of statements. */
  function Executed(st: Statement): seq<Row> {
    seq(|st.values|, i requires 0 <= i < |st.values| =>
      if RowAt(st, st.values[i]).Some? then RowAt(st, st.values[i]).value else Row("", 0, [], Null))
  }

  lemma InsertsExecuted(st: Statement, rows: seq<Row>)
    requires Inserts(st, rows)
    ensures Executed(st) == rows
  {}

  /** The table with its primary key. A failing statement rolls the transaction back. */
  class RuntimeItems {
    var table: seq<Row>

    ghost predicate Valid()
      reads this
    {
      PrimaryKeysDistinct(table)
    }

    constructor ()
      ensures Valid() && table == []
    {
      table := [];
    }

    /**
    `persistSnapshot` as the aggregator: begin, set the scope, delete what is visible, insert chunk by
    chunk, commit. The connection fails at statement `failAt` of these, counted from 0, when there is one;
    whatever was done is then rolled back, and a commit that fails commits nothing.
    */
    method Persist(s: Snapshot, keys: seq<string>, failAt: Option<nat>) returns (ok: bool)
      requires Valid()
      modifies this
      ensures Valid()
      ensures ok ==> table == SnapshotToRows(s, keys)
      ensures !ok ==> table == old(table)
      ensures ok <==>
        (PrimaryKeysDistinct(SnapshotToRows(s, keys)) &&
         (failAt.None? || failAt.value > 3 + (|SnapshotToRows(s, keys)| + 499) / 500))
    {
      hide SnapshotToRows, Select, Inserts, Executed;
      var rows := Flattened(s, keys);
      var sts, chunks := BuildStatements(rows);
      var before := table;
      if failAt.Some? && failAt.value < 3 { return false; }  // begin, scope, delete
      table := Select(table, Hidden(Some(ALL)));
      NothingHiddenFromAggregator(before);
      for i := 0 to |sts|
        invariant table == Concat(chunks[..i]) && PrimaryKeysDistinct(table)
        invariant failAt.Some? ==> i + 3 <= failAt.value
      {
        InsertsExecuted(sts[i], chunks[i]);
        var added := Executed(sts[i]);
        assert chunks[..i + 1][..i] == chunks[..i];
        PrefixOfAll(chunks, i + 1);
        var conflict := HasConflict(table + added);
        if failAt == Some(i + 3) || conflict {
          if failAt != Some(i + 3) { NotAllDistinct(table + added, rows); }
          table := before;
          return false;
        }
        table := table + added;
      }
      assert chunks[..|chunks|] == chunks;
      if failAt == Some(|sts| + 3) {
        table := before;
        return false;
      }
      ok := true;
    }

    /** `loadSnapshot`: the SELECT returns the rows in some order; an empty table gives nothing. */
    method Load(arrival: seq<Row>) returns (s: Option<Snapshot>)
      requires multiset(arrival) == multiset(table)
      ensures table == [] ==> s == None
      ensures table != [] ==> s == Some(RowsToSnapshot(arrival))
    {
      if |arrival| == 0 {
        assert |multiset(table)| == 0;
        return None;
      }
      assert arrival[0] in multiset(table);
      var rebuilt := Rebuilt(arrival);
      s := Some(rebuilt);
    }
  }

  lemma {:induction false} PrefixOfAll(chunks: seq<seq<Row>>, n: nat)
    requires n <= |chunks|
    ensures Concat(chunks[..n]) <= Concat(chunks)
    decreases |chunks| - n
  {
    if n == |chunks| {
      assert chunks[..n] == chunks;
    } else {
      PrefixOfAll(chunks, n + 1);
      assert chunks[..n + 1][..n] == chunks[..n];
      assert Concat(chunks[..n]) <= Concat(chunks[..n + 1]);
    }
  }

  lemma NotAllDistinct(part: seq<Row>, all: seq<Row>)
    requires part <= all && !PrimaryKeysDistinct(part)
    ensures !PrimaryKeysDistinct(all)
  {
    var i, j :| 0 <= i < j < |part| && KeyOf(part[i]) == KeyOf(part[j]);
    assert all[i] == part[i] && all[j] == part[j];
  }

  method HasConflict(rows: seq<Row>) returns (b: bool)
    ensures b <==> !PrimaryKeysDistinct(rows)
  {
    b := !(forall i | 0 <= i < |rows| :: forall j | i < j < |rows| :: KeyOf(rows[i]) != KeyOf(rows[j]));
  }
}
