/**
Row-level security of the runtime store: predicates over the row's tenant and the session
setting, in SQL's three-valued logic.
*/
module TenantPolicy {
  import opened Text
  import opened Json
  import opened Lists
  import opened Options
  import opened RowStore
  import opened RowStoreProofs

  datatype Sql = True | False | Unknown

  function Or3(a: Sql, b: Sql): Sql {
    if a == True || b == True then True else if a == False && b == False then False else Unknown
  }

  function And3(a: Sql, b: Sql): Sql {
    if a == False || b == False then False else if a == True && b == True then True else Unknown
  }

  /** Equality with a session setting that may be NULL. */
  function Eq3(a: Text, setting: Option<Text>): Sql {
    if setting.None? then Unknown else if a == setting.value then True else False
  }

  /** The USING clause. */
  function Using(tenantId: Text, setting: Option<Text>): Sql {
    Or3(Or3(if tenantId == SYSTEM then True else False, Eq3(ALL, setting)), Eq3(tenantId, setting))
  }

  /** The WITH CHECK clause. */
  function WithCheck(tenantId: Text, setting: Option<Text>): Sql {
    Or3(Or3(Eq3(ALL, setting), Eq3(tenantId, setting)),
      And3(if tenantId == SYSTEM then True else False, Eq3(ALL, setting)))
  }

  /** A row is visible, or may be written, only when its predicate is true. */
  function Visible(setting: Option<Text>): Scope {
    (tenantId: Text) => Using(tenantId, setting) == True
  }

  predicate MayWrite(tenantId: Text, setting: Option<Text>) {
    WithCheck(tenantId, setting) == True
  }

  /** A session scoped to one tenant: not the aggregator, not the shared tenant. */
  predicate Ordinary(t: Text) {
    t != ALL && t != SYSTEM
  }

  lemma Sentinels()
    ensures SYSTEM != ALL && SYSTEM != []
  {
    assert |SYSTEM| != |ALL|;
  }

  /** Who sees a row: everyone a shared one, its tenant, and the aggregator; an unset scope only shared ones. */
  lemma VisibleRows(tenantId: Text, setting: Option<Text>)
    ensures Visible(setting)(tenantId) <==>
      tenantId == SYSTEM || (setting.Some? && (setting.value == ALL || setting.value == tenantId))
  {
    Sentinels();
  }

  /** Who may write a row: the aggregator any, a tenant its own; a tenant never a shared one. */
  lemma WritableRows(tenantId: Text, setting: Option<Text>)
    ensures MayWrite(tenantId, setting) <==> setting.Some? && (setting.value == ALL || setting.value == tenantId)
    ensures setting.Some? && Ordinary(setting.value) ==> !MayWrite(SYSTEM, setting)
  {
    Sentinels();
  }

  /**
  What a tenant session rebuilds from the rows it may read, in any order: every collection filtered
  to the documents of that tenant and the shared ones, in order.
  */
  lemma TenantView(s: Snapshot, keys: seq<string>, t: Text, rows: seq<Row>)
    requires Distinct(keys) && Ordinary(t)
    requires multiset(rows) == multiset(Select(SnapshotToRows(s, keys), Seen(Visible(Some(t)))))
    ensures RowsToSnapshot(rows) == View(s, keys, Visible(Some(t)))
    ensures forall doc :: Visible(Some(t))(TenantOf(doc)) <==> TenantOf(doc) in {t, SYSTEM}
  {
    hide RowsToSnapshot, View, SnapshotToRows, Select, Visible;
    RebuildView(s, keys, Visible(Some(t)), rows);
    forall doc ensures Visible(Some(t))(TenantOf(doc)) <==> TenantOf(doc) in {t, SYSTEM} {
      VisibleRows(TenantOf(doc), Some(t));
    }
  }

  /** Two different tenants have only shared rows in common. */
  lemma TenantsShareOnlySystem(t: Text, u: Text, r: Row)
    requires Ordinary(t) && Ordinary(u) && t != u
    ensures Visible(Some(t))(r.tenantId) && Visible(Some(u))(r.tenantId) <==> r.tenantId == SYSTEM
  {
    hide Visible;
    VisibleRows(r.tenantId, Some(t));
    VisibleRows(r.tenantId, Some(u));
  }

  /** A session with no scope rebuilds the shared documents, and nothing else. */
  lemma UnsetScope(s: Snapshot, keys: seq<string>, rows: seq<Row>)
    requires Distinct(keys)
    requires multiset(rows) == multiset(Select(SnapshotToRows(s, keys), Seen(Visible(None))))
    ensures RowsToSnapshot(rows) == View(s, keys, Visible(None))
    ensures forall doc :: Visible(None)(TenantOf(doc)) <==> TenantOf(doc) == SYSTEM
  {
    hide RowsToSnapshot, View, SnapshotToRows, Select, Visible;
    RebuildView(s, keys, Visible(None), rows);
    forall doc ensures Visible(None)(TenantOf(doc)) <==> TenantOf(doc) == SYSTEM { VisibleRows(TenantOf(doc), None); }
  }

  /** The aggregator's reads and writes are unrestricted. */
  lemma AggregatorUnrestricted(tenantId: Text)
    ensures Visible(Some(ALL))(tenantId) && MayWrite(tenantId, Some(ALL))
  {
    hide Visible, MayWrite;
    VisibleRows(tenantId, Some(ALL));
    WritableRows(tenantId, Some(ALL));
  }

  /** A `{ key, value }` entry names no tenant itself, so it is shared whatever its value says. */
  lemma MapEntriesAreShared(key: Json, value: Json, setting: Option<Text>)
    ensures TenantOf(Object([("key", key), ("value", value)])) == SYSTEM
    ensures Visible(setting)(TenantOf(Object([("key", key), ("value", value)])))
  {
    hide Visible;
    var fields := [("key", key), ("value", value)];
    var first := [("key", key)];
    assert fields[..1] == first && first[..0] == [];
    assert Members(first) == map[][L("key") := key];
    assert Members(fields) == Members(first)[L("value") := value];
    assert |L("tenant_id")| != |L("key")| && |L("tenant_id")| != |L("value")|;
    VisibleRows(SYSTEM, setting);
  }
}
