/**
Which tenant a document is filed under and who gets it back, in terms of what the document itself says.
*/
module TenantFiling {
  import opened Text
  import opened Json
  import opened Lists
  import opened Options
  import opened RowStore
  import opened RowStoreProofs
  import opened TenantPolicy

  /** An object with this tenant_id. */
  predicate Names(doc: Json, t: Text) {
    t != [] && doc.Obj? && L("tenant_id") in doc.members && doc.members[L("tenant_id")] == Str(t)
  }

  /** A document belongs to the tenant it names; an array to the one its second item names. */
  predicate BelongsTo(doc: Json, t: Text) {
    if doc.Arr? then |doc.items| > 1 && Names(doc.items[1], t) else Names(doc, t)
  }

  /** Filed under the tenant it belongs to, or as shared when it belongs to none. */
  ghost predicate FiledRight(r: Row) {
    BelongsTo(r.doc, r.tenantId) || (r.tenantId == L("__system__") && forall t :: !BelongsTo(r.doc, t))
  }

  lemma OnlyOne(doc: Json, t: Text, u: Text)
    requires BelongsTo(doc, t) && BelongsTo(doc, u)
    ensures t == u
  {}

  lemma DocFiled(collection: string, i: nat, doc: Json)
    ensures FiledRight(Row(collection, i, TenantOf(doc), doc))
  {}

  /** Every row of a snapshot is filed right: the tenant of its row is what its document says. */
  lemma {:induction false} FlattenFiled(cs: seq<Section>, r: Row)
    requires r in Flatten(cs)
    ensures FiledRight(r)
  {
    hide TenantOf, FiledRight;
    var n := |cs| - 1;
    if r in Flatten(cs[..n]) {
      FlattenFiled(cs[..n], r);
    } else {
      var rows := Rows(cs[n]);
      assert r in rows;
      var i :| 0 <= i < |rows| && rows[i] == r;
      DocFiled(cs[n].name, i, cs[n].docs[i]);
    }
  }

  lemma RowsFiledRight(s: Snapshot, keys: seq<string>, r: Row)
    requires r in SnapshotToRows(s, keys)
    ensures FiledRight(r)
  {
    FlattenFiled(Sections(s, keys), r);
  }

  /* ---- who gets a document back ---- */

  /** A place of a snapshot that holds documents. */
  datatype Place = TenantRecord | RootList(k: string) | FleetField(k: string)

  /** The lists of a snapshot that are stored, and the fleet fields named by the key list. */
  predicate StoredPlace(p: Place, keys: seq<string>) {
    match p
    case TenantRecord => true
    case RootList(k) => k in ["events", "eventJournal", "auditEvents", "tasks", "probes", "devices", "enrollmentCodes"]
    case FleetField(k) => k in keys
  }

  /** The documents at a place: the items of a list, or the one value. */
  function DocsAt(s: Snapshot, p: Place): seq<Json> {
    match p
    case TenantRecord => if s.tenant.Some? && (s.tenant.value.Obj? || s.tenant.value.Arr?) then [s.tenant.value] else []
    case RootList(k) => if k in s.root && s.root[k].Arr? then s.root[k].items else []
    case FleetField(k) =>
      if k !in s.fleet then [] else if s.fleet[k].Arr? then s.fleet[k].items else [s.fleet[k]]
  }

  /** The collection that a place is stored as. */
  function CollectionAt(s: Snapshot, p: Place): string {
    match p
    case TenantRecord => "root-obj:tenant"
    case RootList(k) => (if k == "devices" || k == "enrollmentCodes" then "root-map:" else "root-arr:") + k
    case FleetField(k) => (if k in s.fleet && s.fleet[k].Arr? then "fleet-arr:" else "fleet-val:") + k
  }

  /** The row of the i-th document of a place. */
  ghost predicate IsRowOf(r: Row, s: Snapshot, p: Place, i: nat) {
    && i < |DocsAt(s, p)| && r.collection == CollectionAt(s, p) && r.ordinal == i && r.doc == DocsAt(s, p)[i]
    && FiledRight(r)
  }

  ghost predicate Stored(r: Row, s: Snapshot, keys: seq<string>) {
    exists p, i: nat :: StoredPlace(p, keys) && IsRowOf(r, s, p, i)
  }

  /** The stored rows are exactly those of the documents at the stored places. */
  lemma RowsExactly(s: Snapshot, keys: seq<string>, r: Row)
    ensures r in SnapshotToRows(s, keys) <==> Stored(r, s, keys)
  {
    hide Flatten, Sections, Rows, TenantOf, FiledRight, StoredPlace, DocsAt, CollectionAt;
    var cs := Sections(s, keys);
    if r in SnapshotToRows(s, keys) {
      RowsFiledRight(s, keys, r);
      InSomeSection(cs, r);
      var n: nat, i: nat :| n < |cs| && RowIsAt(cs[n], r, i);
      var p := PlaceOf(s, keys, n);
      assert IsRowOf(r, s, p, i);
    }
    if Stored(r, s, keys) {
      var p, i: nat :| StoredPlace(p, keys) && IsRowOf(r, s, p, i);
      var n := SectionOf(s, keys, p);
      DocFiled(r.collection, i, r.doc);
      OneFiling(r.doc, r, Row(r.collection, i, TenantOf(r.doc), r.doc));
      SectionIn(cs, n, i, r);
    }
  }

  lemma OneFiling(doc: Json, r: Row, q: Row)
    requires r.doc == q.doc == doc && FiledRight(r) && FiledRight(q)
    ensures r.tenantId == q.tenantId
  {
    hide BelongsTo;
    if BelongsTo(doc, r.tenantId) && BelongsTo(doc, q.tenantId) { OnlyOne(doc, r.tenantId, q.tenantId); }
  }

  /** The place that a section holds. */
  lemma PlaceOf(s: Snapshot, keys: seq<string>, n: nat) returns (p: Place)
    requires n < |Sections(s, keys)|
    ensures StoredPlace(p, keys) && Sections(s, keys)[n] == Section(CollectionAt(s, p), DocsAt(s, p))
  {
    if n == 0 {
      p := TenantRecord;
    } else if n < 6 {
      p := RootList(ROOT_ARRAYS[n - 1]);
    } else if n < 8 {
      p := RootList(ROOT_MAPS[n - 6]);
    } else {
      assert keys[n - 8] in keys;
      p := FleetField(keys[n - 8]);
    }
  }

  lemma SectionOf(s: Snapshot, keys: seq<string>, p: Place) returns (n: nat)
    requires StoredPlace(p, keys)
    ensures n < |Sections(s, keys)| && Sections(s, keys)[n] == Section(CollectionAt(s, p), DocsAt(s, p))
  {
    match p
    case TenantRecord => n := 0;
    case RootList(k) =>
      n := if k == "events" then 1 else if k == "eventJournal" then 2 else if k == "auditEvents" then 3
        else if k == "tasks" then 4 else if k == "probes" then 5 else if k == "devices" then 6 else 7;
    case FleetField(k) =>
      var i :| 0 <= i < |keys| && keys[i] == k;
      n := 8 + i;
      assert Sections(s, keys)[n] == FleetSections(s.fleet, keys)[i];
  }

  ghost predicate RowIsAt(c: Section, r: Row, i: nat) {
    i < |c.docs| && r == Row(c.name, i, TenantOf(c.docs[i]), c.docs[i])
  }

  lemma {:induction false} InSomeSection(cs: seq<Section>, r: Row)
    requires r in Flatten(cs)
    ensures exists n: nat, i: nat :: n < |cs| && RowIsAt(cs[n], r, i)
  {
    hide TenantOf;
    var n := |cs| - 1;
    if r in Flatten(cs[..n]) {
      InSomeSection(cs[..n], r);
      var m: nat, i: nat :| m < n && RowIsAt(cs[..n][m], r, i);
      assert RowIsAt(cs[m], r, i);
    } else {
      var i: nat :| i < |cs[n].docs| && Rows(cs[n])[i] == r;
      assert RowIsAt(cs[n], r, i);
    }
  }

  lemma {:induction false} SectionIn(cs: seq<Section>, n: nat, i: nat, r: Row)
    requires n < |cs| && RowIsAt(cs[n], r, i)
    ensures r in Flatten(cs)
  {
    hide TenantOf;
    var last := |cs| - 1;
    if n < last {
      SectionIn(cs[..last], n, i, r);
    } else {
      assert Rows(cs[n])[i] == r;
    }
  }

  /**
  Everyone gets a document that belongs to no tenant or to the shared one; a tenant also its own; the aggregator
  all.
  */
  ghost predicate Entitled(doc: Json, setting: Option<Text>) {
    || (forall t :: !BelongsTo(doc, t))
    || BelongsTo(doc, L("__system__"))
    || setting == Some(L("__all__"))
    || (setting.Some? && BelongsTo(doc, setting.value))
  }

  lemma EntitledSees(doc: Json, setting: Option<Text>)
    ensures Visible(setting)(TenantOf(doc)) <==> Entitled(doc, setting)
  {
    hide Visible, BelongsTo;
    VisibleRows(TenantOf(doc), setting);
    DocFiled("", 0, doc);
    forall t, u | BelongsTo(doc, t) && BelongsTo(doc, u) ensures t == u { OnlyOne(doc, t, u); }
  }

  /** The documents of a list that a session is entitled to, in order. */
  ghost function EntitledDocs(docs: seq<Json>, setting: Option<Text>): seq<Json> {
    if docs == [] then []
    else
      var front := EntitledDocs(docs[..|docs| - 1], setting);
      if Entitled(docs[|docs| - 1], setting) then front + [docs[|docs| - 1]] else front
  }

  lemma {:induction false} SeenIsEntitled(docs: seq<Json>, setting: Option<Text>)
    ensures SeenDocs(docs, Visible(setting)) == EntitledDocs(docs, setting)
    ensures forall doc :: doc in EntitledDocs(docs, setting) <==> doc in docs && Entitled(doc, setting)
  {
    hide Visible, Entitled, TenantOf;
    if docs != [] {
      var n := |docs| - 1;
      SeenIsEntitled(docs[..n], setting);
      EntitledSees(docs[n], setting);
      assert docs == docs[..n] + [docs[n]];
    }
  }

  lemma ViewDocs(s: Snapshot, keys: seq<string>, scope: Scope, p: Place)
    requires StoredPlace(p, keys)
    ensures DocsAt(View(s, keys, scope), p) == SeenDocs(DocsAt(s, p), scope)
  {
    match p
    case TenantRecord =>
      if IsObject(s.tenant) { OneSeenDoc(s.tenant.value, scope); }
    case RootList(k) => assert k in ROOT_ARRAYS || k in ROOT_MAPS; NothingElse(s, keys, scope, k);
    case FleetField(k) =>
      if k in s.fleet && !s.fleet[k].Arr? { OneSeenDoc(s.fleet[k], scope); }
  }

  lemma OneSeenDoc(doc: Json, scope: Scope)
    ensures SeenDocs([doc], scope) == if scope(TenantOf(doc)) then [doc] else []
  {
    assert [doc][..0] == [];
  }

  lemma NothingElse(s: Snapshot, keys: seq<string>, scope: Scope, k: string)
    requires k in ROOT_ARRAYS || k in ROOT_MAPS
    ensures DocsAt(View(s, keys, scope), RootList(k)) == SeenDocs(DocsAt(s, RootList(k)), scope)
  {
    assert SeenRoot(s.root, ROOT_ARRAYS, scope).Keys <= set j | j in ROOT_ARRAYS;
    hide TenantOf, SeenFleet;
  }

  /**
  A session rebuilds, at every place of the snapshot and in order, exactly the documents it is entitled to:
  those naming no tenant or the shared one, and its own; no document that names another tenant.
  */
  lemma SessionRebuilds(s: Snapshot, keys: seq<string>, setting: Option<Text>, rows: seq<Row>, p: Place)
    requires Distinct(keys) && StoredPlace(p, keys)
    requires multiset(rows) == multiset(Select(SnapshotToRows(s, keys), Seen(Visible(setting))))
    ensures DocsAt(RowsToSnapshot(rows), p) == EntitledDocs(DocsAt(s, p), setting)
    ensures forall doc :: doc in DocsAt(RowsToSnapshot(rows), p) <==> doc in DocsAt(s, p) && Entitled(doc, setting)
  {
    hide RowsToSnapshot, View, SnapshotToRows, Select, Visible, DocsAt, Entitled;
    RebuildView(s, keys, Visible(setting), rows);
    ViewDocs(s, keys, Visible(setting), p);
    SeenIsEntitled(DocsAt(s, p), setting);
  }

  /** For an ordinary tenant: a document that belongs to another tenant is not in its rebuild. */
  lemma NoForeignDocument(s: Snapshot, keys: seq<string>, t: Text, u: Text, rows: seq<Row>, p: Place, doc: Json)
    requires Distinct(keys) && StoredPlace(p, keys) && t != L("__all__")
    requires multiset(rows) == multiset(Select(SnapshotToRows(s, keys), Seen(Visible(Some(t)))))
    requires BelongsTo(doc, u) && u != t && u != L("__system__")
    ensures doc !in DocsAt(RowsToSnapshot(rows), p)
  {
    hide RowsToSnapshot, SnapshotToRows, Select, Visible, DocsAt, BelongsTo;
    SessionRebuilds(s, keys, Some(t), rows, p);
    forall x | BelongsTo(doc, x) ensures x == u { OnlyOne(doc, x, u); }
  }
}
