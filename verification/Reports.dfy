/**
Cost and token aggregation over usage records: buckets per group, totals over everything, and the
date windows that select records. Numbers are exact.
*/
module Reports {
  import opened Lists
  import opened Options
  import opened JsMap

  /** A field that is present and not blank: its string form, and its number when that is finite. */
  datatype Cell = Cell(text: string, number: Option<real>)

  /** Absent fields are undefined, null or the empty string in the source. */
  type Record = map<string, Cell>

  /** What labels need from elsewhere: tenant names, operating-system families, trimming. */
  datatype Naming = Naming(tenantName: string -> string, osFamily: string -> string, trim: string -> string)

  datatype Dimension = Device | User | Agent | Tenant | Model | Provider

  /* ---- fields ---- */

  function FieldNumber(r: Record, keys: seq<string>): real {
    if keys == [] then 0.0
    else if keys[0] in r && r[keys[0]].number.Some? then r[keys[0]].number.value
    else FieldNumber(r, keys[1..])
  }

  function FieldString(r: Record, keys: seq<string>, fallback: string): string {
    if keys == [] then fallback
    else if keys[0] in r then r[keys[0]].text
    else FieldString(r, keys[1..], fallback)
  }

  predicate Contains(s: string, part: string) {
    (|part| <= |s| && s[..|part|] == part) || (s != [] && Contains(s[1..], part))
  }

  predicate IsCostToken(r: Record) {
    var metric := FieldString(r, ["metric"], "");
    || metric == "ai_model_usage" || Contains(metric, "token") || Contains(metric, "cost")
    || FieldNumber(r, ["total_tokens", "tokens", "input_tokens", "output_tokens"]) > 0.0
    || FieldNumber(r, ["allocated_cost_cents", "estimated_cost_cents", "cost_cents", "amount_cents",
         "billed_credits", "credits"]) > 0.0
  }

  /* ---- grouping ---- */

  datatype Meta =
    | NoMeta
    | DeviceMeta(lcpId: string, osFamily: string, osVersion: string)
    | ModelMeta(provider: string, model: string)

  datatype Identity = Identity(key: string, display: string, meta: Meta)

  function DeviceKey(r: Record): string { FieldString(r, ["device_id", "device_name"], "unknown-device") }
  function UserKey(r: Record): string { FieldString(r, ["user_subject", "user_id"], "unknown-user") }
  function TenantKey(r: Record): string { FieldString(r, ["tenant_id"], "unknown-tenant") }
  function ProviderKey(r: Record): string { FieldString(r, ["provider"], "unknown") }
  function ModelName(r: Record): string { FieldString(r, ["model"], "unknown") }

  /** How an agent is grouped, and how it is counted: two different rules. */
  function AgentGroupKey(r: Record): string {
    FieldString(r, ["agent_id", "entity_id", "object_id"], FieldString(r, ["agent_name", "name"], "unknown-agent"))
  }

  function AgentCountKey(r: Record): string {
    FieldString(r, ["agent_id", "entity_id"], FieldString(r, ["agent_name"], "unknown-agent"))
  }

  function GroupIdentity(names: Naming, r: Record, d: Dimension): Identity {
    match d
    case Device => Identity(DeviceKey(r), FieldString(r, ["device_name", "device_id"], "Unknown device"),
      DeviceMeta(FieldString(r, ["lcp_id"], "unknown-lcp"), (names.osFamily)(FieldString(r, ["os_family"], "unknown")),
        FieldString(r, ["os_version"], "")))
    case User => Identity(UserKey(r), FieldString(r, ["user_subject", "user_id"], "Unknown user"), NoMeta)
    case Agent => Identity(AgentGroupKey(r),
      FieldString(r, ["agent_name", "name", "agent_id", "entity_id"], "Unknown agent"), NoMeta)
    case Tenant => Identity(TenantKey(r), (names.tenantName)(TenantKey(r)), NoMeta)
    case Model => Identity(ProviderKey(r) + "::" + ModelName(r), (names.trim)(ProviderKey(r) + " " + ModelName(r)),
      ModelMeta(ProviderKey(r), ModelName(r)))
    case Provider => Identity(ProviderKey(r), FieldString(r, ["provider"], "Unknown provider"), NoMeta)
  }

  function KeyOf(names: Naming, d: Dimension): Record -> string {
    (r: Record) => GroupIdentity(names, r, d).key
  }

  /* ---- accumulation ---- */

  /** The additive part of a bucket. */
  datatype Measures = Measures(
    input: real, output: real, cached: real, total: real, cost: real, credits: real, calls: real,
    records: nat, reported: nat, estimated: nat)
  {
    function Plus(m: Measures): Measures {
      Measures(input + m.input, output + m.output, cached + m.cached, total + m.total, cost + m.cost,
        credits + m.credits, calls + m.calls, records + m.records, reported + m.reported, estimated + m.estimated)
    }
  }

  const ZERO := Measures(0.0, 0.0, 0.0, 0.0, 0.0, 0.0, 0.0, 0, 0, 0)

  function MeasuresOf(r: Record): Measures {
    var input := FieldNumber(r, ["input_tokens", "prompt_tokens"]);
    var output := FieldNumber(r, ["output_tokens", "completion_tokens"]);
    var total := FieldNumber(r, ["total_tokens", "tokens"]);
    var estimated := Contains(FieldString(r, ["confidence", "source"], "reported"), "estimate");
    Measures(input, output, FieldNumber(r, ["cached_input_tokens"]),
      if total != 0.0 then total else input + output,
      FieldNumber(r, ["allocated_cost_cents", "estimated_cost_cents", "cost_cents", "amount_cents"]),
      FieldNumber(r, ["billed_credits", "credits", "credit_units"]),
      FieldNumber(r, ["call_count", "calls", "request_count"]),
      1, if estimated then 0 else 1, if estimated then 1 else 0)
  }

  /** String comparison by character. */
  predicate Later(a: string, b: string) {
    a != [] && (b == [] || a[0] > b[0] || (a[0] == b[0] && Later(a[1..], b[1..])))
  }

  datatype Bucket = Bucket(
    identity: Identity, m: Measures,
    pools: set<string>, devices: set<string>, users: set<string>, agents: set<string>,
    tenants: set<string>, providers: set<string>, models: set<string>, lastActivity: string)

  function NewBucket(identity: Identity): Bucket {
    Bucket(identity, ZERO, {}, {}, {}, {}, {}, {}, {}, "")
  }

  /** `accumulateCostToken`. */
  function Accumulate(b: Bucket, r: Record): Bucket {
    var pool := FieldString(r, ["billing_pool_id", "credit_pool_id"], "");
    var at := FieldString(r, ["observed_at", "recorded_at"], "");
    Bucket(b.identity, b.m.Plus(MeasuresOf(r)),
      if pool != "" then b.pools + {pool} else b.pools,
      b.devices + {DeviceKey(r)}, b.users + {UserKey(r)}, b.agents + {AgentCountKey(r)},
      b.tenants + {TenantKey(r)}, b.providers + {ProviderKey(r)}, b.models + {ModelName(r)},
      if at != "" && (b.lastActivity == "" || Later(at, b.lastActivity)) then at else b.lastActivity)
  }

  function AccumulateAll(b: Bucket, rs: seq<Record>): Bucket {
    if rs == [] then b else Accumulate(AccumulateAll(b, rs[..|rs| - 1]), rs[|rs| - 1])
  }

  /* ---- finishing ---- */

  /** `Number(x.toFixed(4))`: the nearest multiple of 0.0001, ties away from zero; huge values are kept. */
  function Round4(x: real): real {
    if x >= 1000000000000000000000.0 || x <= -1000000000000000000000.0 then x
    else if x < 0.0 then -((-x * 10000.0 + 0.5).Floor as real / 10000.0)
    else (x * 10000.0 + 0.5).Floor as real / 10000.0
  }

  datatype Group = Group(
    identity: Identity, m: Measures, credits: real, pools: set<string>,
    deviceCount: nat, userCount: nat, agentCount: nat, tenantCount: nat, providerCount: nat, modelCount: nat,
    lastActivity: string)

  function Finalize(b: Bucket): Group {
    Group(b.identity, b.m, Round4(b.m.credits), b.pools, |b.devices|, |b.users|, |b.agents|, |b.tenants|,
      |b.providers|, |b.models|, b.lastActivity)
  }

  /** The comparator of the report: a does not come after b. */
  predicate InOrder(a: Group, b: Group) {
    || a.m.cost > b.m.cost
    || (a.m.cost == b.m.cost &&
        (a.m.total > b.m.total || (a.m.total == b.m.total && a.m.calls >= b.m.calls)))
  }

  ghost predicate Sorted(gs: seq<Group>) {
    forall i, j | 0 <= i < j < |gs| :: InOrder(gs[i], gs[j])
  }

  lemma InsertedBefore(g: Group, before: seq<Group>, after: seq<Group>, last: Group)
    requires multiset(after) == multiset(before) + multiset{g}
    requires InOrder(g, last) && forall i | 0 <= i < |before| :: InOrder(before[i], last)
    ensures forall i | 0 <= i < |after| :: InOrder(after[i], last)
  {
    hide InOrder;
    forall i | 0 <= i < |after| ensures InOrder(after[i], last) {
      assert after[i] in multiset(after);
      if after[i] != g { assert after[i] in before; }
    }
  }

  function InsertGroup(g: Group, gs: seq<Group>): (r: seq<Group>)
    requires Sorted(gs)
    ensures Sorted(r) && multiset(r) == multiset(gs) + multiset{g}
  {
    if gs == [] || InOrder(gs[|gs| - 1], g) then gs + [g]
    else
      var n := |gs| - 1;
      assert gs == gs[..n] + [gs[n]];
      var front := InsertGroup(g, gs[..n]);
      InsertedBefore(g, gs[..n], front, gs[n]);
      front + [gs[n]]
  }

  /** The report's sort, which keeps the order of equals. */
  function SortGroups(gs: seq<Group>): (r: seq<Group>)
    ensures Sorted(r) && multiset(r) == multiset(gs)
  {
    if gs == [] then []
    else
      assert gs == gs[..|gs| - 1] + [gs[|gs| - 1]];
      InsertGroup(gs[|gs| - 1], SortGroups(gs[..|gs| - 1]))
  }

  /* ---- the groups of a record list ---- */

  function HasKey(key: Record -> string, k: string): Record -> bool {
    (r: Record) => key(r) == k
  }

  /** The records of one group, in order. */
  function InGroup(rs: seq<Record>, key: Record -> string, k: string): seq<Record> {
    Select(rs, HasKey(key, k))
  }

  /** Group keys in order of first appearance. */
  function GroupKeys(rs: seq<Record>, key: Record -> string): (ks: seq<string>)
    ensures forall k :: k in ks <==> exists r :: r in rs && key(r) == k
    ensures forall i, j | 0 <= i < j < |ks| :: ks[i] != ks[j]
  {
    if rs == [] then []
    else
      var n := |rs| - 1;
      var front := GroupKeys(rs[..n], key);
      assert rs == rs[..n] + [rs[n]];
      if key(rs[n]) in front then front else front + [key(rs[n])]
  }

  /** The bucket of one group: identity from its first record, everything else from all of them. */
  function BucketOf(names: Naming, rs: seq<Record>, d: Dimension, k: string): Bucket {
    var mine := InGroup(rs, KeyOf(names, d), k);
    AccumulateAll(NewBucket(if mine == [] then Identity(k, "", NoMeta) else GroupIdentity(names, mine[0], d)), mine)
  }

  function Groups(names: Naming, rs: seq<Record>, d: Dimension): seq<Group> {
    var ks := GroupKeys(rs, KeyOf(names, d));
    seq(|ks|, i requires 0 <= i < |ks| => Finalize(BucketOf(names, rs, d, ks[i])))
  }

  /** `aggregateCostTokens`. */
  function Report(names: Naming, rs: seq<Record>, d: Dimension): seq<Group> {
    SortGroups(Groups(names, rs, d))
  }

  const TOTALS := Identity("totals", "totals", NoMeta)

  /** `summarizeCostTokens`, before its fields are renamed. */
  function Totals(rs: seq<Record>): Group {
    Finalize(AccumulateAll(NewBucket(TOTALS), rs))
  }

  /* ---- date windows ---- */

  const DAY := 86400000

  /** A query bound: missing or unparsable, a bare date as a day number, or an instant in milliseconds. */
  datatype Bound = NoBound | DayBound(day: int) | InstantBound(ms: int)

  function BoundMs(b: Bound, endOfDay: bool): Option<int> {
    match b
    case NoBound => None
    case DayBound(d) => Some(if endOfDay then d * DAY + DAY - 1 else d * DAY)
    case InstantBound(ms) => Some(ms)
  }

  function Stamp(parse: string -> Option<int>, r: Record): Option<int> {
    var text := FieldString(r, ["observed_at", "recorded_at", "occurred_at"], "");
    if text == "" then None else parse(text)
  }

  /** `recordWithinRange`, both ends included. */
  predicate Within(parse: string -> Option<int>, r: Record, from: Option<int>, to: Option<int>) {
    (from.None? && to.None?) ||
    (var ms := Stamp(parse, r);
     ms.Some? && (from.Some? ==> from.value <= ms.value) && (to.Some? ==> ms.value <= to.value))
  }

  /** A cost or token record of a tenant between two times; an empty tenant means all tenants. */
  function InScope(parse: string -> Option<int>, tenant: string, from: Option<int>, to: Option<int>): Record -> bool {
    (r: Record) =>
      IsCostToken(r) && (tenant == "" || ("tenant_id" in r && r["tenant_id"].text == tenant)) &&
        Within(parse, r, from, to)
  }

  /** `costTokenRecordsForScope`. */
  function ForScope(parse: string -> Option<int>, rs: seq<Record>, tenant: string, from: Bound,
      to: Bound): seq<Record>
  {
    Select(rs, InScope(parse, tenant, BoundMs(from, false), BoundMs(to, true)))
  }

  /* ---- as loops over mutable buckets ---- */

  method Aggregate(names: Naming, rs: seq<Record>, d: Dimension) returns (gs: seq<Group>)
    ensures gs == Report(names, rs, d)
  {
    hide Accumulate, GroupIdentity, Set, Finalize;
    var buckets: seq<Entry<string, Bucket>> := [];
    var key := KeyOf(names, d);
    for i := 0 to |rs|
      invariant Bucketed(names, buckets, rs[..i], d)
    {
      var identity := GroupIdentity(names, rs[i], d);
      BucketStep(names, buckets, rs, d, i);
      if !Has(buckets, identity.key) { buckets := Set(buckets, identity.key, NewBucket(identity)); }
      buckets := Set(buckets, identity.key, Accumulate(Get(buckets, identity.key), rs[i]));
    }
    assert rs[..|rs|] == rs;
    var finals: seq<Group> := seq(|buckets|, i requires 0 <= i < |buckets| => Finalize(buckets[i].value));
    assert finals == Groups(names, rs, d);
    gs := SortGroups(finals);
  }

  /** The Map of buckets after some records. */
  ghost predicate Bucketed(names: Naming, buckets: seq<Entry<string, Bucket>>, rs: seq<Record>, d: Dimension) {
    var ks := GroupKeys(rs, KeyOf(names, d));
    |buckets| == |ks| && forall i | 0 <= i < |ks| :: buckets[i] == Entry(ks[i], BucketOf(names, rs, d, ks[i]))
  }

  lemma BucketedLookup(names: Naming, buckets: seq<Entry<string, Bucket>>, rs: seq<Record>, d: Dimension, k: string)
    requires Bucketed(names, buckets, rs, d)
    ensures DistinctKeys(buckets)
    ensures Has(buckets, k) <==> k in GroupKeys(rs, KeyOf(names, d))
    ensures Has(buckets, k) ==> Get(buckets, k) == BucketOf(names, rs, d, k)
  {
    hide BucketOf, GroupKeys;
    var ks := GroupKeys(rs, KeyOf(names, d));
    if k in ks {
      var i :| 0 <= i < |ks| && ks[i] == k;
      assert buckets[i].key == k && forall j | 0 <= j < i :: buckets[j].key != k;
      FindUnique(buckets, k, i);
    }
  }

  lemma {:induction false} EmptyGroup(rs: seq<Record>, key: Record -> string, k: string)
    ensures InGroup(rs, key, k) == [] <==> k !in GroupKeys(rs, key)
  {
    if rs != [] {
      var n := |rs| - 1;
      EmptyGroup(rs[..n], key, k);
    }
  }

  lemma AccumulateMore(b: Bucket, rs: seq<Record>, r: Record)
    ensures AccumulateAll(b, rs + [r]) == Accumulate(AccumulateAll(b, rs), r)
  {
    hide Accumulate;
    assert (rs + [r])[..|rs|] == rs;
  }

  lemma InGroupStep(rs: seq<Record>, key: Record -> string, i: nat, k: string)
    requires i < |rs|
    ensures InGroup(rs[..i + 1], key, k) == InGroup(rs[..i], key, k) + (if key(rs[i]) == k then [rs[i]] else [])
  {
    var after := rs[..i + 1];
    assert after[..|after| - 1] == rs[..i];
  }

  lemma BucketOfStep(names: Naming, rs: seq<Record>, d: Dimension, i: nat, k: string)
    requires i < |rs|
    ensures var identity := GroupIdentity(names, rs[i], d);
      var before := BucketOf(names, rs[..i], d, k);
      BucketOf(names, rs[..i + 1], d, k) ==
        if k != identity.key then before
        else Accumulate(if k in GroupKeys(rs[..i], KeyOf(names, d)) then before else NewBucket(identity), rs[i])
  {
    hide Accumulate, AccumulateAll, GroupIdentity, GroupKeys, InGroup;
    var key := KeyOf(names, d);
    EmptyGroup(rs[..i], key, k);
    InGroupStep(rs, key, i, k);
    var mine := InGroup(rs[..i], key, k);
    if key(rs[i]) == k {
      var all := mine + [rs[i]];
      assert all[0] == if mine == [] then rs[i] else mine[0];
      AccumulateMore(NewBucket(GroupIdentity(names, all[0], d)), mine, rs[i]);
      AccumulateNone(NewBucket(GroupIdentity(names, rs[i], d)));
    } else {
      assert mine + [] == mine;
    }
  }

  lemma AccumulateNone(b: Bucket)
    ensures AccumulateAll(b, []) == b
  {}

  lemma GroupKeysStep(rs: seq<Record>, key: Record -> string, i: nat)
    requires i < |rs|
    ensures var front := GroupKeys(rs[..i], key);
      GroupKeys(rs[..i + 1], key) == if key(rs[i]) in front then front else front + [key(rs[i])]
  {
    var after := rs[..i + 1];
    assert after[..|after| - 1] == rs[..i];
  }

  lemma BucketStep(names: Naming, buckets: seq<Entry<string, Bucket>>, rs: seq<Record>, d: Dimension, i: nat)
    requires i < |rs| && Bucketed(names, buckets, rs[..i], d)
    ensures var identity := GroupIdentity(names, rs[i], d);
      var k := identity.key;
      var m := if Has(buckets, k) then buckets else Set(buckets, k, NewBucket(identity));
      Bucketed(names, Set(m, k, Accumulate(Get(m, k), rs[i])), rs[..i + 1], d)
  {
    hide Accumulate, BucketOf, GroupIdentity, GroupKeys;
    var identity := GroupIdentity(names, rs[i], d);
    var k := identity.key;
    var before, after := rs[..i], rs[..i + 1];
    BucketedLookup(names, buckets, before, d, k);
    GroupKeysStep(rs, KeyOf(names, d), i);
    forall j: string | j != k ensures BucketOf(names, after, d, j) == BucketOf(names, before, d, j) {
      BucketOfStep(names, rs, d, i, j);
    }
    BucketOfStep(names, rs, d, i, k);
    var b := BucketOf(names, after, d, k);
    if Has(buckets, k) {
      BucketedPut(names, buckets, before, after, d, k);
    } else {
      SetNew(buckets, k, NewBucket(identity), b);
      BucketedAdd(names, buckets, before, after, d, k);
    }
  }

  lemma BucketedPut(names: Naming, buckets: seq<Entry<string, Bucket>>, before: seq<Record>, after: seq<Record>,
      d: Dimension, k: string)
    requires Bucketed(names, buckets, before, d) && Has(buckets, k)
    requires GroupKeys(after, KeyOf(names, d)) == GroupKeys(before, KeyOf(names, d))
    requires forall j: string | j != k :: BucketOf(names, after, d, j) == BucketOf(names, before, d, j)
    ensures Bucketed(names, Set(buckets, k, BucketOf(names, after, d, k)), after, d)
  {
    hide BucketOf, GroupKeys;
    var b := BucketOf(names, after, d, k);
    assert Set(buckets, k, b) == buckets[Find(buckets, k) := Entry(k, b)];
  }

  lemma BucketedAdd(names: Naming, buckets: seq<Entry<string, Bucket>>, before: seq<Record>, after: seq<Record>,
      d: Dimension, k: string)
    requires Bucketed(names, buckets, before, d)
    requires k !in GroupKeys(before, KeyOf(names, d))
    requires GroupKeys(after, KeyOf(names, d)) == GroupKeys(before, KeyOf(names, d)) + [k]
    requires forall j: string | j != k :: BucketOf(names, after, d, j) == BucketOf(names, before, d, j)
    ensures Bucketed(names, buckets + [Entry(k, BucketOf(names, after, d, k))], after, d)
  {
    hide BucketOf, GroupKeys;
  }

  lemma SetNew(buckets: seq<Entry<string, Bucket>>, k: string, a: Bucket, b: Bucket)
    requires !Has(buckets, k)
    ensures Get(Set(buckets, k, a), k) == a
    ensures Set(Set(buckets, k, a), k, b) == buckets + [Entry(k, b)]
  {
    var m := Set(buckets, k, a);
    assert m == buckets + [Entry(k, a)];
    FindUnique(m, k, |buckets|) by { assert forall j | 0 <= j < |buckets| :: m[j].key != k; }
  }

  method Summarize(rs: seq<Record>) returns (g: Group)
    ensures g == Totals(rs)
  {
    hide Accumulate;
    var totals := NewBucket(TOTALS);
    for i := 0 to |rs|
      invariant totals == AccumulateAll(NewBucket(TOTALS), rs[..i])
    {
      assert rs[..i + 1][..i] == rs[..i];
      totals := Accumulate(totals, rs[i]);
    }
    assert rs[..|rs|] == rs;
    g := Finalize(totals);
  }
}
