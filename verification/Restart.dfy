/**
Taking a snapshot of the runtime state and applying it to a freshly booted process, through the
row store or through the snapshot file.
*/
module Restart {
  import opened Text
  import opened Json
  import opened Options
  import opened JsMap
  import opened RowStore
  import opened RowStoreProofs

  /** The deny-list of the trust spine. */
  datatype Revocations = Revocations(
    epoch: nat, keyIds: seq<Json>, digests: seq<Json>, revisions: seq<Json>, history: seq<Json>)

  /** The persisted part of the runtime state. */
  datatype State = State(
    tenant: map<Text, Json>,
    devices: seq<Entry<Json, Json>>, enrollmentCodes: seq<Entry<Json, Json>>,
    events: seq<Json>, eventJournal: seq<Json>, auditEvents: seq<Json>, tasks: seq<Json>, probes: seq<Json>,
    fleet: map<string, seq<Json>>, bundleGeneration: nat, trustRevocations: Revocations)

  /** `persistedFleetKeys`: the array fields, then the counter and the deny-list. */
  function Persisted(keys: seq<string>): seq<string> {
    keys + ["bundleGeneration", "trustRevocations"]
  }

  /* ---- snapshot ---- */

  function EntryDoc(e: Entry<Json, Json>): Json {
    Obj(map[L("key") := e.key, L("value") := e.value])
  }

  /** `mapToEntries`. */
  function MapToEntries(m: seq<Entry<Json, Json>>): seq<Json> {
    seq(|m|, i requires 0 <= i < |m| => EntryDoc(m[i]))
  }

  function RevocationsDoc(r: Revocations): Json {
    Obj(map[L("revocation_epoch") := Nat(r.epoch), L("revoked_key_ids") := Arr(r.keyIds),
      L("revoked_bundle_digests") := Arr(r.digests), L("revoked_revisions") := Arr(r.revisions),
      L("history") := Arr(r.history)])
  }

  function FleetDoc(st: State, k: string): Json
    requires k in st.fleet || k in ["bundleGeneration", "trustRevocations"]
  {
    if k == "bundleGeneration" then Nat(st.bundleGeneration)
    else if k == "trustRevocations" then RevocationsDoc(st.trustRevocations)
    else Arr(st.fleet[k])
  }

  /** `runtimeStateSnapshot`. */
  function SnapshotOf(st: State, keys: seq<string>): Snapshot
    requires forall k | k in keys :: k in st.fleet
  {
    Snapshot(
      Some(Obj(st.tenant)),
      map["devices" := Arr(MapToEntries(st.devices)), "events" := Arr(st.events),
        "eventJournal" := Arr(st.eventJournal), "auditEvents" := Arr(st.auditEvents), "tasks" := Arr(st.tasks),
        "probes" := Arr(st.probes), "enrollmentCodes" := Arr(MapToEntries(st.enrollmentCodes))],
      map k | k in Persisted(keys) :: FleetDoc(st, k))
  }

  /* ---- apply ---- */

  /** Entries of the documents that own a `key`. */
  function EntriesIn(docs: seq<Json>): seq<Entry<Json, Json>> {
    if docs == [] then []
    else
      var front, d := EntriesIn(docs[..|docs| - 1]), docs[|docs| - 1];
      if d.Obj? && L("key") in d.members then
        front + [Entry(d.members[L("key")], if L("value") in d.members then d.members[L("value")] else Null)]
      else front
  }

  /** `entriesToMap`. */
  function EntriesToMap(docs: seq<Json>): seq<Entry<Json, Json>> {
    FromEntries(EntriesIn(docs))
  }

  /** `slice(0, n)`. */
  function First(s: seq<Json>, n: nat): (r: seq<Json>)
    ensures r <= s && |r| == if |s| <= n then |s| else n
  {
    if |s| <= n then s else s[..n]
  }

  /** `slice(-n)` for a positive n. */
  function Last(s: seq<Json>, n: nat): (r: seq<Json>)
    ensures |r| == (if |s| <= n then |s| else n) && forall i | 0 <= i < |r| :: r[i] == s[|s| - |r| + i]
  {
    if |s| <= n then s else s[|s| - n..]
  }

  function ParseDigits(t: Text): nat
    requires forall i | 0 <= i < |t| :: 0x30 <= t[i] <= 0x39
  {
    if t == [] then 0
    else
      var last: int := t[|t| - 1];
      ParseDigits(t[..|t| - 1]) * 10 + (last - 0x30)
  }

  function Natural(t: Text): Option<nat> {
    if forall i | 0 <= i < |t| :: 0x30 <= t[i] <= 0x39 then Some(ParseDigits(t)) else None
  }

  /** A stored count. The counter and the epoch are only ever stored as natural numbers. */
  function Count(v: Json): Option<nat> {
    if v.Num? then Natural(v.numeral) else None
  }

  function ArrayAt(m: map<Text, Json>, k: Text): seq<Json> {
    if k in m && m[k].Arr? then m[k].items else []
  }

  function RestoredRevocations(m: map<Text, Json>): Revocations {
    var epoch := if L("revocation_epoch") in m then Count(m[L("revocation_epoch")]) else None;
    Revocations(if epoch.Some? then epoch.value else 0, ArrayAt(m, L("revoked_key_ids")),
      ArrayAt(m, L("revoked_bundle_digests")), ArrayAt(m, L("revoked_revisions")), ArrayAt(m, L("history")))
  }

  /** A list field: cut to its retention when the snapshot has it, else left alone. */
  function ListAt(root: map<string, Json>, k: string, cut: seq<Json> -> seq<Json>, boot: seq<Json>): seq<Json> {
    if k in root && root[k].Arr? then cut(root[k].items) else boot
  }

  function FirstOf(n: nat): seq<Json> -> seq<Json> {
    s => First(s, n)
  }

  function LastOf(n: nat): seq<Json> -> seq<Json> {
    s => Last(s, n)
  }

  function Entries(root: map<string, Json>, k: string, boot: seq<Entry<Json, Json>>): seq<Entry<Json, Json>> {
    if k in root && root[k].Arr? then EntriesToMap(root[k].items) else boot
  }

  predicate HasArray(m: map<string, Json>, k: string) {
    k in m && m[k].Arr?
  }

  /** Every listed field that the snapshot has as an array is overwritten. */
  function FleetAfter(boot: map<string, seq<Json>>, m: map<string, Json>, keys: seq<string>): map<string, seq<Json>> {
    map k | k in boot.Keys + (set k | k in keys && HasArray(m, k)) ::
      if k in keys && HasArray(m, k) then m[k].items else boot[k]
  }

  lemma FleetAfterStep(boot: map<string, seq<Json>>, m: map<string, Json>, keys: seq<string>, i: nat)
    requires i < |keys|
    ensures FleetAfter(boot, m, keys[..i + 1]) ==
      if HasArray(m, keys[i]) then FleetAfter(boot, m, keys[..i])[keys[i] := m[keys[i]].items]
        else FleetAfter(boot, m, keys[..i])
  {
    assert keys[..i + 1] == keys[..i] + [keys[i]];
  }

  /** `applyRuntimeStateSnapshot` on a booted state; `window` is the length of the replay journal. */
  function Apply(boot: State, s: Snapshot, keys: seq<string>, window: nat): State {
    State(
      if s.tenant.Some? && s.tenant.value.Obj? then boot.tenant + s.tenant.value.members else boot.tenant,
      Entries(s.root, "devices", boot.devices),
      Entries(s.root, "enrollmentCodes", boot.enrollmentCodes),
      ListAt(s.root, "events", FirstOf(100), boot.events),
      ListAt(s.root, "eventJournal", LastOf(window), boot.eventJournal),
      ListAt(s.root, "auditEvents", FirstOf(100), boot.auditEvents),
      ListAt(s.root, "tasks", FirstOf(25), boot.tasks),
      ListAt(s.root, "probes", FirstOf(20), boot.probes),
      FleetAfter(boot.fleet, s.fleet, keys),
      if "bundleGeneration" in s.fleet && Count(s.fleet["bundleGeneration"]).Some?
        then Count(s.fleet["bundleGeneration"]).value else boot.bundleGeneration,
      if "trustRevocations" in s.fleet && s.fleet["trustRevocations"].Obj?
        then RestoredRevocations(s.fleet["trustRevocations"].members) else boot.trustRevocations)
  }

  lemma FleetAfterNone(boot: map<string, seq<Json>>, m: map<string, Json>)
    ensures FleetAfter(boot, m, []) == boot
  {}

  /* ---- what a restart brings back ---- */

  /** A process that has just booted: everything empty but the tenant defaults and the billing plans. */
  ghost predicate FreshBoot(boot: State, keys: seq<string>) {
    && boot.devices == [] && boot.enrollmentCodes == []
    && boot.events == boot.eventJournal == boot.auditEvents == boot.tasks == boot.probes == []
    && boot.fleet.Keys == (set k | k in keys)
    && (forall k | k in keys :: boot.fleet[k] != [] <==> k == "billingPlans")
  }

  /** A live state: its fleet has exactly the persisted fields, its maps have distinct keys. */
  ghost predicate Live(st: State, keys: seq<string>) {
    && st.fleet.Keys == (set k | k in keys)
    && DistinctKeys(st.devices) && DistinctKeys(st.enrollmentCodes)
  }

  ghost predicate KeyList(keys: seq<string>) {
    Distinct(Persisted(keys)) && "billingPlans" in keys
  }

  ghost predicate Retained(st: State, window: nat) {
    |st.events| <= 100 && |st.eventJournal| <= window && |st.auditEvents| <= 100 && |st.tasks| <= 25 &&
      |st.probes| <= 20
  }

  /** The state a restart produces, in terms of the state that was saved. */
  function Survivor(boot: State, st: State, window: nat, billingPlans: seq<Json>): State {
    st.(tenant := boot.tenant + st.tenant,
        events := First(st.events, 100), eventJournal := Last(st.eventJournal, window),
        auditEvents := First(st.auditEvents, 100), tasks := First(st.tasks, 25), probes := First(st.probes, 20),
        fleet := st.fleet["billingPlans" := billingPlans])
  }

  lemma ParseDigitsOfNat(n: nat)
    ensures ParseDigits(Digits(n)) == n
  {
    if n >= 10 {
      var t := Digits(n);
      assert t[..|t| - 1] == Digits(n / 10);
      ParseDigitsOfNat(n / 10);
    } else {
      assert Digits(n)[..0] == [];
    }
  }

  lemma CountOfNat(n: nat)
    ensures Count(Nat(n)) == Some(n)
  {
    ParseDigitsOfNat(n);
  }

  lemma RevocationsBack(r: Revocations)
    ensures RevocationsDoc(r).Obj? && RestoredRevocations(RevocationsDoc(r).members) == r
  {
    CountOfNat(r.epoch);
    assert |L("revocation_epoch")| == 16 && |L("revoked_key_ids")| == 15 && |L("revoked_bundle_digests")| == 22;
    assert |L("revoked_revisions")| == 17 && |L("history")| == 7;
    hide L;
  }

  lemma {:induction false} EntriesBack(m: seq<Entry<Json, Json>>)
    ensures EntriesIn(MapToEntries(m)) == m
  {
    if m != [] {
      var n := |m| - 1;
      assert |L("key")| != |L("value")|;
      assert MapToEntries(m)[..n] == MapToEntries(m[..n]);
      EntriesBack(m[..n]);
      assert m == m[..n] + [m[n]];
    }
  }

  /** `entriesToMap` undoes `mapToEntries`, order included. */
  lemma MapRoundTrip(m: seq<Entry<Json, Json>>)
    requires DistinctKeys(m)
    ensures EntriesToMap(MapToEntries(m)) == m
  {
    EntriesBack(m);
    FromOwnEntries(m);
  }

  lemma MapsBack(root: map<string, Json>, k: string, m: seq<Entry<Json, Json>>)
    requires DistinctKeys(m)
    requires if m == [] then k !in root || root[k] == Arr([]) else k in root && root[k] == Arr(MapToEntries(m))
    ensures Entries(root, k, []) == m
  {
    hide EntriesIn;
    MapRoundTrip(m);
    if m == [] { assert MapToEntries(m) == []; }
  }

  /** What a snapshot holds after it went through a store that may drop empty arrays. */
  ghost predicate Carries(s: Snapshot, st: State, keys: seq<string>, keepsEmpty: bool) {
    && Live(st, keys)
    && s.tenant == Some(Obj(st.tenant))
    && CarriesRoot(s.root, st)
    && (forall k | k in keys && st.fleet[k] != [] :: k in s.fleet && s.fleet[k] == Arr(st.fleet[k]))
    && (forall k | k in keys && st.fleet[k] == [] ::
      if keepsEmpty then k in s.fleet && s.fleet[k] == Arr([]) else k !in s.fleet)
    && "bundleGeneration" in s.fleet && s.fleet["bundleGeneration"] == Nat(st.bundleGeneration)
    && "trustRevocations" in s.fleet && s.fleet["trustRevocations"] == RevocationsDoc(st.trustRevocations)
  }

  ghost predicate CarriesList(root: map<string, Json>, k: string, docs: seq<Json>) {
    if docs == [] then k !in root || root[k] == Arr([]) else k in root && root[k] == Arr(docs)
  }

  ghost predicate CarriesRoot(root: map<string, Json>, st: State) {
    && CarriesList(root, "devices", MapToEntries(st.devices))
    && CarriesList(root, "enrollmentCodes", MapToEntries(st.enrollmentCodes))
    && CarriesList(root, "events", st.events)
    && CarriesList(root, "eventJournal", st.eventJournal)
    && CarriesList(root, "auditEvents", st.auditEvents)
    && CarriesList(root, "tasks", st.tasks)
    && CarriesList(root, "probes", st.probes)
  }

  lemma ListBack(root: map<string, Json>, k: string, cut: seq<Json> -> seq<Json>, docs: seq<Json>)
    requires CarriesList(root, k, docs) && cut([]) == []
    ensures ListAt(root, k, cut, []) == cut(docs)
  {}

  lemma EntriesListBack(root: map<string, Json>, k: string, m: seq<Entry<Json, Json>>)
    requires DistinctKeys(m) && CarriesList(root, k, MapToEntries(m))
    ensures Entries(root, k, []) == m
  {
    hide EntriesIn, DistinctKeys;
    assert m == [] <==> MapToEntries(m) == [] by { assert |m| == |MapToEntries(m)|; }
    MapsBack(root, k, m);
  }

  /** Applying what was carried gives the survivor, field by field. */
  lemma ApplyCarried(boot: State, s: Snapshot, st: State, keys: seq<string>, window: nat, keepsEmpty: bool)
    requires KeyList(keys) && FreshBoot(boot, keys) && Carries(s, st, keys, keepsEmpty)
    ensures Apply(boot, s, keys, window) ==
      Survivor(boot, st, window,
        if st.fleet["billingPlans"] == [] && !keepsEmpty then boot.fleet["billingPlans"] else st.fleet["billingPlans"])
  {
    hide DistinctKeys, MapToEntries, Entries, RevocationsDoc, RestoredRevocations, Nat, Count, Persisted, FleetAfter,
      ListAt;
    EntriesListBack(s.root, "devices", st.devices);
    EntriesListBack(s.root, "enrollmentCodes", st.enrollmentCodes);
    ListBack(s.root, "events", FirstOf(100), st.events);
    ListBack(s.root, "eventJournal", LastOf(window), st.eventJournal);
    ListBack(s.root, "auditEvents", FirstOf(100), st.auditEvents);
    ListBack(s.root, "tasks", FirstOf(25), st.tasks);
    ListBack(s.root, "probes", FirstOf(20), st.probes);
    CountOfNat(st.bundleGeneration);
    RevocationsBack(st.trustRevocations);
    FleetCarried(boot, s, st, keys, keepsEmpty);
  }

  lemma FleetCarried(boot: State, s: Snapshot, st: State, keys: seq<string>, keepsEmpty: bool)
    requires KeyList(keys) && FreshBoot(boot, keys) && Carries(s, st, keys, keepsEmpty)
    ensures FleetAfter(boot.fleet, s.fleet, keys) == st.fleet["billingPlans" :=
      if st.fleet["billingPlans"] == [] && !keepsEmpty then boot.fleet["billingPlans"] else st.fleet["billingPlans"]]
  {
    hide DistinctKeys, CarriesRoot, RevocationsDoc, Nat, Persisted;
    assert forall k | k in keys :: HasArray(s.fleet, k) <==> st.fleet[k] != [] || keepsEmpty;
    assert forall k | k in keys && HasArray(s.fleet, k) :: s.fleet[k].items == st.fleet[k];
  }

  /** When the survivor is the saved state. */
  lemma SurvivorExact(boot: State, st: State, window: nat, billingPlans: seq<Json>)
    requires "billingPlans" in st.fleet
    ensures Survivor(boot, st, window, billingPlans) == st <==>
      Retained(st, window) && boot.tenant.Keys <= st.tenant.Keys && billingPlans == st.fleet["billingPlans"]
  {
    assert boot.tenant + st.tenant == st.tenant <==> boot.tenant.Keys <= st.tenant.Keys by {
      if boot.tenant + st.tenant == st.tenant {
        assert (boot.tenant + st.tenant).Keys == boot.tenant.Keys + st.tenant.Keys;
      }
      if boot.tenant.Keys <= st.tenant.Keys { assert (boot.tenant + st.tenant) == st.tenant; }
    }
    assert st.fleet["billingPlans" := billingPlans] == st.fleet <==> billingPlans == st.fleet["billingPlans"] by {
      assert st.fleet["billingPlans" := billingPlans]["billingPlans"] == billingPlans;
    }
  }

  lemma FileCarries(st: State, keys: seq<string>)
    requires KeyList(keys) && Live(st, keys)
    ensures Carries(SnapshotOf(st, keys), st, keys, true)
  {
    hide DistinctKeys, MapToEntries, RevocationsDoc, Nat, CarriesRoot, Persisted;
    NotArrayKeys(keys);
    assert CarriesRoot(SnapshotOf(st, keys).root, st) by { FileRoot(st, keys); }
  }

  lemma FileRoot(st: State, keys: seq<string>)
    requires Live(st, keys)
    ensures CarriesRoot(SnapshotOf(st, keys).root, st)
  {
    hide DistinctKeys, MapToEntries, FleetDoc, Persisted;
  }

  lemma NotArrayKeys(keys: seq<string>)
    requires Distinct(Persisted(keys))
    ensures "bundleGeneration" !in keys && "trustRevocations" !in keys && Distinct(keys)
    ensures forall k :: k in Persisted(keys) <==> k in keys || k == "bundleGeneration" || k == "trustRevocations"
  {
    var all := Persisted(keys);
    assert all[|keys|] == "bundleGeneration" && all[|keys| + 1] == "trustRevocations";
    assert forall i | 0 <= i < |keys| :: all[i] == keys[i];
  }

  lemma StoredRoot(root: map<string, Json>, stored: map<string, Json>, k: string, docs: seq<Json>)
    requires stored == map k | k in ROOT_ARRAYS + ROOT_MAPS && k in root && root[k].Arr? && root[k].items != [] ::
      root[k]
    requires k in ROOT_ARRAYS + ROOT_MAPS && k in root && root[k] == Arr(docs)
    ensures CarriesList(stored, k, docs)
  {}

  lemma RootCarries(st: State, keys: seq<string>)
    requires Live(st, keys)
    ensures CarriesRoot(Stored(SnapshotOf(st, keys), Persisted(keys)).root, st)
  {
    hide MapToEntries, CarriesList, FleetDoc, Persisted;
    var s := SnapshotOf(st, keys);
    var stored := Stored(s, Persisted(keys)).root;
    StoredRoot(s.root, stored, "devices", MapToEntries(st.devices));
    StoredRoot(s.root, stored, "enrollmentCodes", MapToEntries(st.enrollmentCodes));
    StoredRoot(s.root, stored, "events", st.events);
    StoredRoot(s.root, stored, "eventJournal", st.eventJournal);
    StoredRoot(s.root, stored, "auditEvents", st.auditEvents);
    StoredRoot(s.root, stored, "tasks", st.tasks);
    StoredRoot(s.root, stored, "probes", st.probes);
  }

  lemma RowsCarry(st: State, keys: seq<string>)
    requires KeyList(keys) && Live(st, keys)
    ensures Carries(Stored(SnapshotOf(st, keys), Persisted(keys)), st, keys, false)
  {
    hide DistinctKeys, MapToEntries, CarriesRoot, Persisted, SnapshotOf, Stored, Nat, RevocationsDoc;
    NotArrayKeys(keys);
    RootCarries(st, keys);
    FleetCarries(st, keys);
    assert Stored(SnapshotOf(st, keys), Persisted(keys)).tenant == Some(Obj(st.tenant)) by { TenantCarries(st, keys); }
  }

  lemma TenantCarries(st: State, keys: seq<string>)
    requires Live(st, keys)
    ensures Stored(SnapshotOf(st, keys), Persisted(keys)).tenant == Some(Obj(st.tenant))
  {
    hide MapToEntries, FleetDoc, Persisted, ROOT_ARRAYS, ROOT_MAPS;
  }

  lemma FleetCarries(st: State, keys: seq<string>)
    requires KeyList(keys) && Live(st, keys)
    ensures var m := Stored(SnapshotOf(st, keys), Persisted(keys)).fleet;
      && (forall k | k in keys && st.fleet[k] != [] :: k in m && m[k] == Arr(st.fleet[k]))
      && (forall k | k in keys && st.fleet[k] == [] :: k !in m)
      && "bundleGeneration" in m && m["bundleGeneration"] == Nat(st.bundleGeneration)
      && "trustRevocations" in m && m["trustRevocations"] == RevocationsDoc(st.trustRevocations)
  {
    hide DistinctKeys, MapToEntries, Persisted, ROOT_ARRAYS, ROOT_MAPS, FleetDoc, Nat, RevocationsDoc;
    NotArrayKeys(keys);
    FleetDocs(st, keys);
    hide Stored, SnapshotOf;
    forall k | k in Persisted(keys) ensures StoredFleetAt(st, keys, k) { FleetAt(st, keys, k); }
  }

  /** The stored fleet has a field exactly when it is not an empty array. */
  ghost predicate StoredFleetAt(st: State, keys: seq<string>, k: string)
    requires Live(st, keys) && k in Persisted(keys)
  {
    var m := Stored(SnapshotOf(st, keys), Persisted(keys)).fleet;
    (k in m <==> FleetDoc(st, k) != Arr([])) && (k in m ==> m[k] == FleetDoc(st, k))
  }

  lemma FleetAt(st: State, keys: seq<string>, k: string)
    requires Live(st, keys) && k in Persisted(keys)
    ensures StoredFleetAt(st, keys, k)
  {
    hide FleetDoc, Persisted, MapToEntries, DistinctKeys;
  }

  lemma FleetDocs(st: State, keys: seq<string>)
    requires Live(st, keys) && "bundleGeneration" !in keys && "trustRevocations" !in keys
    ensures forall k | k in keys :: FleetDoc(st, k) == Arr(st.fleet[k])
    ensures FleetDoc(st, "bundleGeneration") == Nat(st.bundleGeneration) != Arr([])
    ensures FleetDoc(st, "trustRevocations") == RevocationsDoc(st.trustRevocations) != Arr([])
  {
    hide DistinctKeys, Digits;
  }

  /**
  Restart through the row store: whatever order the rows come back in, the fresh process ends in the
  survivor of the saved state, and that is the saved state itself exactly when it is within the
  retention limits, has a billing plan, and has every default tenant field.
  */
  lemma RestartFromRows(boot: State, st: State, keys: seq<string>, window: nat, rows: seq<Row>)
    requires KeyList(keys) && FreshBoot(boot, keys) && Live(st, keys)
    requires multiset(rows) == multiset(SnapshotToRows(SnapshotOf(st, keys), Persisted(keys)))
    ensures var plans := st.fleet["billingPlans"];
      Apply(boot, RowsToSnapshot(rows), keys, window) ==
        Survivor(boot, st, window, if plans == [] then boot.fleet["billingPlans"] else plans)
    ensures Apply(boot, RowsToSnapshot(rows), keys, window) == st <==>
      Retained(st, window) && boot.tenant.Keys <= st.tenant.Keys && st.fleet["billingPlans"] != []
  {
    hide RowsToSnapshot, SnapshotToRows, SnapshotOf, Stored, Apply, Survivor, Carries, Persisted, Distinct;
    RowsRoundTrip(SnapshotOf(st, keys), Persisted(keys), rows);
    RowsCarry(st, keys);
    var plans := st.fleet["billingPlans"];
    ApplyCarried(boot, Stored(SnapshotOf(st, keys), Persisted(keys)), st, keys, window, false);
    SurvivorExact(boot, st, window, if plans == [] then boot.fleet["billingPlans"] else plans);
  }

  /** Restart through the snapshot file, which keeps empty arrays: the billing plans always survive. */
  lemma RestartFromFile(boot: State, st: State, keys: seq<string>, window: nat)
    requires KeyList(keys) && FreshBoot(boot, keys) && Live(st, keys)
    ensures Apply(boot, SnapshotOf(st, keys), keys, window) == Survivor(boot, st, window, st.fleet["billingPlans"])
    ensures Apply(boot, SnapshotOf(st, keys), keys, window) == st <==>
      Retained(st, window) && boot.tenant.Keys <= st.tenant.Keys
  {
    hide SnapshotOf, Apply, Survivor, Carries, Persisted, Distinct;
    FileCarries(st, keys);
    ApplyCarried(boot, SnapshotOf(st, keys), st, keys, window, true);
    SurvivorExact(boot, st, window, st.fleet["billingPlans"]);
  }

  /** The process state that a loaded snapshot overwrites. */
  class RuntimeState {
    var state: State
    const keys: seq<string>
    const window: nat

    constructor (boot: State, keys: seq<string>, window: nat)
      ensures state == boot && this.keys == keys && this.window == window
    {
      this.state, this.keys, this.window := boot, keys, window;
    }

    method ApplyFleet(s: Snapshot)
      modifies this
      ensures state == old(state).(fleet := FleetAfter(old(state).fleet, s.fleet, keys))
    {
      hide FleetAfter;
      var fleet := state.fleet;
      assert fleet == FleetAfter(fleet, s.fleet, keys[..0]) by { FleetAfterNone(fleet, s.fleet); }
      for i := 0 to |keys|
        invariant state == old(state)
        invariant fleet == FleetAfter(old(state).fleet, s.fleet, keys[..i])
      {
        var k := keys[i];
        FleetAfterStep(old(state).fleet, s.fleet, keys, i);
        if k in s.fleet && s.fleet[k].Arr? { fleet := fleet[k := s.fleet[k].items]; }
      }
      assert keys[..|keys|] == keys;
      state := state.(fleet := fleet);
    }

    method ApplySnapshot(s: Snapshot)
      modifies this
      ensures state == Apply(old(state), s, keys, window)
    {
      hide EntriesToMap, RestoredRevocations, Count, FleetAfter;
      if s.tenant.Some? && s.tenant.value.Obj? {
        state := state.(tenant := state.tenant + s.tenant.value.members);
      }
      state := state.(
        devices := Entries(s.root, "devices", state.devices),
        enrollmentCodes := Entries(s.root, "enrollmentCodes", state.enrollmentCodes),
        events := ListAt(s.root, "events", FirstOf(100), state.events),
        eventJournal := ListAt(s.root, "eventJournal", LastOf(window), state.eventJournal),
        auditEvents := ListAt(s.root, "auditEvents", FirstOf(100), state.auditEvents),
        tasks := ListAt(s.root, "tasks", FirstOf(25), state.tasks),
        probes := ListAt(s.root, "probes", FirstOf(20), state.probes));
      ApplyFleet(s);
      if "bundleGeneration" in s.fleet && Count(s.fleet["bundleGeneration"]).Some? {
        state := state.(bundleGeneration := Count(s.fleet["bundleGeneration"]).value);
      }
      if "trustRevocations" in s.fleet && s.fleet["trustRevocations"].Obj? {
        state := state.(trustRevocations := RestoredRevocations(s.fleet["trustRevocations"].members));
      }
    }
  }
}
