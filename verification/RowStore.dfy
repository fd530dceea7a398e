/**
The durable store: a snapshot of the runtime state as (collection, ordinal, tenant, document)
rows, and the snapshot rebuilt from rows that come back in any order.
*/
module RowStore {
  import opened Text
  import opened Json
  import opened Lists
  import opened Options

  datatype Row = Row(collection: string, ordinal: nat, tenantId: Text, doc: Json)

  /** The named fields of a runtime snapshot; a missing field is absent from its map. */
  datatype Snapshot = Snapshot(tenant: Option<Json>, root: map<string, Json>, fleet: map<string, Json>)

  const ROOT_ARRAYS := ["events", "eventJournal", "auditEvents", "tasks", "probes"]
  const ROOT_MAPS := ["devices", "enrollmentCodes"]
  const SYSTEM := L("__system__")
  const ALL := L("__all__")

  /** The tenant a document names, if it is an object that names one. */
  function NamedTenant(doc: Json): Text {
    if doc.Obj? && L("tenant_id") in doc.members && doc.members[L("tenant_id")].Str? then
      doc.members[L("tenant_id")].text
    else []
  }

  function TenantOf(doc: Json): Text {
    if doc.Arr? then (if |doc.items| > 1 then Or(NamedTenant(doc.items[1]), SYSTEM) else SYSTEM)
    else Or(NamedTenant(doc), SYSTEM)
  }

  /* ---- flattening ---- */

  /** One collection and its documents in order. */
  datatype Section = Section(name: string, docs: seq<Json>)

  function Rows(c: Section): seq<Row> {
    seq(|c.docs|, i requires 0 <= i < |c.docs| => Row(c.name, i, TenantOf(c.docs[i]), c.docs[i]))
  }

  function Flatten(cs: seq<Section>): seq<Row> {
    if cs == [] then [] else Flatten(cs[..|cs| - 1]) + Rows(cs[|cs| - 1])
  }

  function Items(m: map<string, Json>, k: string): seq<Json> {
    if k in m && m[k].Arr? then m[k].items else []
  }

  function RootSections(prefix: string, root: map<string, Json>, ks: seq<string>): seq<Section> {
    seq(|ks|, i requires 0 <= i < |ks| => Section(prefix + ks[i], Items(root, ks[i])))
  }

  function FleetSection(fleet: map<string, Json>, k: string): Section {
    if k !in fleet then Section("fleet-val:" + k, [])
    else if fleet[k].Arr? then Section("fleet-arr:" + k, fleet[k].items)
    else Section("fleet-val:" + k, [fleet[k]])
  }

  function FleetSections(fleet: map<string, Json>, ks: seq<string>): seq<Section> {
    seq(|ks|, i requires 0 <= i < |ks| => FleetSection(fleet, ks[i]))
  }

  /** `typeof value === "object"` for a present value. */
  predicate IsObject(v: Option<Json>) {
    v.Some? && (v.value.Obj? || v.value.Arr?)
  }

  function TenantSection(s: Snapshot): Section {
    Section("root-obj:tenant", if IsObject(s.tenant) then [s.tenant.value] else [])
  }

  function Sections(s: Snapshot, keys: seq<string>): seq<Section> {
    [TenantSection(s)]
    + RootSections("root-arr:", s.root, ROOT_ARRAYS)
    + RootSections("root-map:", s.root, ROOT_MAPS)
    + FleetSections(s.fleet, keys)
  }

  /** `snapshotToRows`. */
  function SnapshotToRows(s: Snapshot, keys: seq<string>): seq<Row> {
    Flatten(Sections(s, keys))
  }

  /* ---- rebuilding ---- */

  function InCollection(c: string): Row -> bool {
    (r: Row) => r.collection == c
  }

  /** The rows grouped under a collection, in the order they arrived. */
  function Group(rows: seq<Row>, c: string): seq<Row> {
    Select(rows, InCollection(c))
  }

  ghost predicate ByOrdinal(rows: seq<Row>) {
    forall i, j | 0 <= i < j < |rows| :: rows[i].ordinal <= rows[j].ordinal
  }

  lemma InsertedBelow(r: Row, before: seq<Row>, after: seq<Row>, bound: nat)
    requires multiset(after) == multiset(before) + multiset{r}
    requires r.ordinal <= bound && forall i | 0 <= i < |before| :: before[i].ordinal <= bound
    ensures forall i | 0 <= i < |after| :: after[i].ordinal <= bound
  {
    forall i | 0 <= i < |after| ensures after[i].ordinal <= bound {
      assert after[i] in multiset(after);
      if after[i] != r { assert after[i] in before; }
    }
  }

  function InsertRow(r: Row, rows: seq<Row>): (s: seq<Row>)
    requires ByOrdinal(rows)
    ensures ByOrdinal(s) && multiset(s) == multiset(rows) + multiset{r}
  {
    if rows == [] || rows[|rows| - 1].ordinal <= r.ordinal then rows + [r]
    else
      var n := |rows| - 1;
      assert rows == rows[..n] + [rows[n]];
      var front := InsertRow(r, rows[..n]);
      InsertedBelow(r, rows[..n], front, rows[n].ordinal);
      front + [rows[n]]
  }

  /** `sort` by ordinal, stable. */
  function SortRows(rows: seq<Row>): (s: seq<Row>)
    ensures ByOrdinal(s) && multiset(s) == multiset(rows)
  {
    if rows == [] then []
    else
      assert rows == rows[..|rows| - 1] + [rows[|rows| - 1]];
      InsertRow(rows[|rows| - 1], SortRows(rows[..|rows| - 1]))
  }

  function Docs(rows: seq<Row>): seq<Json> {
    seq(|rows|, i requires 0 <= i < |rows| => rows[i].doc)
  }

  function OrderedDocs(rows: seq<Row>, c: string): seq<Json> {
    Docs(SortRows(Group(rows, c)))
  }

  /** Collections in the order in which a row first names them. */
  function Collections(rows: seq<Row>): (cs: seq<string>)
    ensures forall c :: c in cs <==> exists r :: r in rows && r.collection == c
  {
    if rows == [] then []
    else
      var n := |rows| - 1;
      var front := Collections(rows[..n]);
      assert rows == rows[..n] + [rows[n]];
      if rows[n].collection in front then front else front + [rows[n].collection]
  }

  predicate HasPrefix(s: string, p: string) {
    |p| <= |s| && s[..|p|] == p
  }

  predicate IsFleet(c: string) {
    HasPrefix(c, "fleet-arr:") || HasPrefix(c, "fleet-val:")
  }

  /** The fleet value a collection stands for. */
  function FleetValue(rows: seq<Row>, c: string): Json {
    if HasPrefix(c, "fleet-arr:") then Arr(OrderedDocs(rows, c))
    else if Group(rows, c) != [] then Group(rows, c)[0].doc
    else Null
  }

  /** Fleet fields set one collection after another. */
  function FleetFrom(rows: seq<Row>, cs: seq<string>): map<string, Json> {
    if cs == [] then map[]
    else
      var c := cs[|cs| - 1];
      var m := FleetFrom(rows, cs[..|cs| - 1]);
      if IsFleet(c) then m[c[10..] := FleetValue(rows, c)] else m
  }

  /** Root fields for the collections that have rows. */
  function RootFrom(rows: seq<Row>, prefix: string, ks: seq<string>): map<string, Json> {
    map k | k in ks && Group(rows, prefix + k) != [] :: Arr(OrderedDocs(rows, prefix + k))
  }

  /** `rowsToSnapshot`. */
  function RowsToSnapshot(rows: seq<Row>): Snapshot {
    var tenants := Group(rows, "root-obj:tenant");
    Snapshot(
      if tenants != [] then Some(tenants[0].doc) else None,
      RootFrom(rows, "root-arr:", ROOT_ARRAYS) + RootFrom(rows, "root-map:", ROOT_MAPS),
      FleetFrom(rows, Collections(rows)))
  }

  /* ---- what a reader with a tenant filter gets back ---- */

  /** Row filters look at the tenant only. */
  type Scope = Text -> bool

  function Seen(p: Scope): Row -> bool {
    (r: Row) => p(r.tenantId)
  }

  /** The documents of a list that a scope sees, in order. */
  function SeenDocs(docs: seq<Json>, p: Scope): seq<Json> {
    if docs == [] then []
    else
      var front := SeenDocs(docs[..|docs| - 1], p);
      if p(TenantOf(docs[|docs| - 1])) then front + [docs[|docs| - 1]] else front
  }

  function SeenRoot(root: map<string, Json>, ks: seq<string>, p: Scope): map<string, Json> {
    map k | k in ks && SeenDocs(Items(root, k), p) != [] :: Arr(SeenDocs(Items(root, k), p))
  }

  function SeenFleet(fleet: map<string, Json>, ks: seq<string>, p: Scope): map<string, Json> {
    map k | k in ks && SeenDocs(FleetSection(fleet, k).docs, p) != [] ::
      if fleet[k].Arr? then Arr(SeenDocs(fleet[k].items, p)) else fleet[k]
  }

  /** The snapshot with every collection filtered to a scope; collections left empty are absent. */
  function View(s: Snapshot, keys: seq<string>, p: Scope): Snapshot {
    Snapshot(
      if IsObject(s.tenant) && p(TenantOf(s.tenant.value)) then s.tenant else None,
      SeenRoot(s.root, ROOT_ARRAYS, p) + SeenRoot(s.root, ROOT_MAPS, p),
      SeenFleet(s.fleet, keys, p))
  }
}
